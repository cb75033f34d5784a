/** What every step does to the handlers in flight, to the host's reset, and to the records kept of the run. */
module FirmwareRecords {
  import opened Common
  import opened RelaySpec
  import opened Firmware
  import opened FirmwareOutcomes
  import H = HealthSpec
  import FirmwareReasons

  // ----- Handlers in flight -----

  /** The handlers of a channel's pulse and of the lease, how far the latter are, and those of warning and reboot. */
  datatype Flight = Flight(pulse: int, lease: int, submitting: int, warning: int, showing: int, rebooting: int)

  function FlightOf(s: Sys, ch: nat): Flight
    requires Sized(s.core.relay) && ch < 6
  {
    var r := s.core.relay;
    Flight(r.pulseWork[ch].running, r.lease.running, s.leaseTails, s.leaseWarns, r.warning.running, r.reboot.running)
  }

  function Flown(cfg: Config, x: Flight, armed: bool, t: Handler, ch: nat): Flight {
    match t
    case PulseFire(c) => if c == ch then x.(pulse := x.pulse + 1) else x
    case PulseBody(c, _) => if c == ch then x.(pulse := x.pulse - 1) else x
    case LeaseFire => x.(lease := x.lease + 1)
    case LeaseBody(writes) =>
      var reboots := armed && NoneFails(writes) && cfg.policy == AlwaysOnOwner(true);
      x.(lease := x.lease - 1, submitting := x.submitting + if reboots then 1 else 0)
    case LeaseSubmission(scheduled) =>
      x.(submitting := x.submitting - 1, warning := x.warning + if scheduled then 1 else 0)
    case LeaseWarning(_) => x.(warning := x.warning - 1)
    case WarningFire => x.(showing := x.showing + 1)
    case WarningBody => x.(showing := x.showing - 1)
    case RebootFire => x.(rebooting := x.rebooting + 1)
    case RebootBody(_) => x.(rebooting := x.rebooting - 1)
  }

  predicate SameHandlers(r: Relay, d: Relay) {
    && Sized(r) && Sized(d) && d.lease.running == r.lease.running && d.warning.running == r.warning.running
    && d.reboot.running == r.reboot.running
    && forall ch :: 0 <= ch < 6 ==> d.pulseWork[ch].running == r.pulseWork[ch].running
  }

  lemma RenewHandlers(cfg: Config, c: Core, now: nat)
    requires Sized(c.relay)
    ensures SameHandlers(c.relay, Renew(cfg, c, now).relay)
  {
  }

  lemma SetHandlers(cfg: Config, c: Core, now: nat, n: nat, on: bool, w: Write)
    requires Shaped(c.relay)
    ensures SameHandlers(c.relay, Set(cfg, c, now, n, on, w).0.relay)
  {
    if n < 6 && w.Written? {
      RenewHandlers(cfg, SetChannel(c.(relay := CancelPulses(c.relay, {n})), n, on, w), now);
    }
  }

  lemma SetAllHandlers(cfg: Config, c: Core, now: nat, mask: set<nat>, writes: seq<Write>)
    requires Shaped(c.relay) && |writes| == 6
    ensures SameHandlers(c.relay, SetAll(cfg, c, now, mask, writes).0.relay)
    ensures SetAll(cfg, c, now, mask, writes).1 == Success <==> mask <= {0, 1, 2, 3, 4, 5} && NoneFails(writes)
  {
    NoneFailsIff(writes);
    if mask <= ALL && NoneFails(writes) {
      RenewHandlers(cfg, ApplyState(c.(relay := CancelPulses(c.relay, ALL)), mask, writes), now);
    }
  }

  lemma PulseHandlers(cfg: Config, c: Core, now: nat, n: nat, duration: nat, w: Write, scheduled: bool, off: Write)
    requires Shaped(c.relay)
    ensures SameHandlers(c.relay, Pulse(cfg, c, now, n, duration, w, scheduled, off).0.relay)
  {
    if n < 6 && 10 <= duration <= 60000 && n !in c.relay.pulsing && w.Written? && scheduled {
      var written := SetChannel(c, n, true, w);
      RenewHandlers(cfg, written.(relay := StartPulse(written.relay, n, duration, now + duration)), now);
    }
  }

  lemma CommandHandlers(cfg: Config, s: Sys, cmd: Command)
    requires Enabled(s, Cmd(cmd))
    ensures SameHandlers(s.core.relay, NextCommand(cfg, s, cmd).core.relay)
  {
    match cmd
    case SetStep(n, on, w) => SetHandlers(cfg, s.core, s.now, n, on, w);
    case SetAllStep(mask, writes) => SetAllHandlers(cfg, s.core, s.now, mask, writes);
    case PulseStep(n, duration, w, scheduled, off) =>
      PulseHandlers(cfg, s.core, s.now, n, duration, w, scheduled, off);
    case HeartbeatStep => RenewHandlers(cfg, s.core, s.now);
  }

  lemma PulseExpiredHandlers(cfg: Config, c: Core, now: nat, n: nat, w: Write)
    requires Shaped(c.relay) && n < 6
    ensures SameHandlers(c.relay, PulseExpired(cfg, c, now, n, w).relay)
  {
  }

  lemma LeaseExpiredHandlers(cfg: Config, c: Core, now: nat, writes: seq<Write>)
    requires Shaped(c.relay) && |writes| == 6
    ensures SameHandlers(c.relay, LeaseExpired(cfg, c, now, writes).relay)
    ensures LeaseWantsReboot(cfg, c, writes) <==>
            c.relay.armed && NoneFails(writes) && cfg.policy == AlwaysOnOwner(true)
  {
    NoneFailsIff(writes);
    if c.relay.armed && NoneFails(writes) {
      var written := ApplyState(c.(relay := CancelPulses(c.relay, ALL)), {}, writes);
      assert SameHandlers(c.relay, written.relay);
      assert SameHandlers(written.relay, AfterLease(cfg, written.relay, now));
    }
  }

  lemma PulseBodyFlight(cfg: Config, s: Sys, n: nat, w: Write, ch: nat)
    requires Enabled(s, Timer(PulseBody(n, w))) && ch < 6
    ensures var u := NextTimer(cfg, s, PulseBody(n, w));
            && Sized(u.core.relay)
            && FlightOf(u, ch) == Flown(cfg, FlightOf(s, ch), s.core.relay.armed, PulseBody(n, w), ch)
  {
    var r := s.core.relay;
    var finished := r.(pulseWork := r.pulseWork[n := r.pulseWork[n].Finish()]);
    PulseExpiredHandlers(cfg, s.core.(relay := finished), s.now, n, w);
  }

  lemma LeaseBodyFlight(cfg: Config, s: Sys, writes: seq<Write>, ch: nat)
    requires Enabled(s, Timer(LeaseBody(writes))) && ch < 6
    ensures var u := NextTimer(cfg, s, LeaseBody(writes));
            && Sized(u.core.relay)
            && FlightOf(u, ch) == Flown(cfg, FlightOf(s, ch), s.core.relay.armed, LeaseBody(writes), ch)
  {
    var r := s.core.relay;
    LeaseExpiredHandlers(cfg, s.core.(relay := r.(lease := r.lease.Finish())), s.now, writes);
  }

  lemma TimerFlight(cfg: Config, s: Sys, t: Handler, ch: nat)
    requires Enabled(s, Timer(t)) && ch < 6
    ensures var u := NextTimer(cfg, s, t);
            && Sized(u.core.relay)
            && FlightOf(u, ch) == Flown(cfg, FlightOf(s, ch), s.core.relay.armed, t, ch)
  {
    match t
    case PulseBody(n, w) => PulseBodyFlight(cfg, s, n, w, ch);
    case LeaseBody(writes) => LeaseBodyFlight(cfg, s, writes, ch);
    case _ =>
  }

  /** Handlers start when their timer expires and each of their parts runs once. */
  lemma FlightStep(cfg: Config, s: Sys, step: Step, ch: nat)
    requires Enabled(s, step) && ch < 6
    ensures var t := Next(cfg, s, step);
            && Sized(t.core.relay)
            && FlightOf(t, ch) == if step.Timer? then Flown(cfg, FlightOf(s, ch), s.core.relay.armed, step.handler, ch)
                                  else FlightOf(s, ch)
  {
    match step
    case Cmd(cmd) => CommandHandlers(cfg, s, cmd);
    case Timer(t) => TimerFlight(cfg, s, t, ch);
    case Host(h) =>
      if h.HostOff? {
        SetAllHandlers(cfg, s.core, s.now, {}, h.writes);
      }
    case _ =>
  }

  // ----- The host's reset -----

  /** One of the host's two reset items: when it is due, its handlers before and after the off-all. */
  datatype ResetWork = ResetWork(due: Option<nat>, handlers: int, off: int)

  function ResetOf(s: Sys, bootsel: bool): ResetWork {
    if bootsel then ResetWork(s.bootsel.due, s.bootsel.running, s.bootselTails)
    else ResetWork(s.host.due, s.host.running, s.hostTails)
  }

  function Hosted(x: ResetWork, h: HostAction, now: nat): ResetWork {
    match h
    case HostRequest(_, scheduled) => if scheduled then x.(due := Submitted(x.due, now + 1000)) else x
    case HostFire(_) => x.(due := None, handlers := x.handlers + 1)
    case HostOff(_, writes) => x.(handlers := x.handlers - 1, off := x.off + if NoneFails(writes) then 1 else 0)
    case HostReset(_, _) => x.(off := x.off - 1)
  }

  lemma HostOffIs(cfg: Config, s: Sys, kind: ResetKind, writes: seq<Write>, bootsel: bool)
    requires Enabled(s, Host(HostOff(kind, writes)))
    ensures var t, x := NextHost(cfg, s, HostOff(kind, writes)), ResetOf(s, bootsel);
            && t.mode == Running
            && ResetOf(t, bootsel) ==
               (if bootsel == (kind == Bootsel) then Hosted(x, HostOff(kind, writes), s.now) else x)
  {
    SetAllHandlers(cfg, s.core, s.now, {}, writes);
  }

  lemma HostActionIs(cfg: Config, s: Sys, h: HostAction, bootsel: bool)
    requires Enabled(s, Host(h))
    ensures var t, x := NextHost(cfg, s, h), ResetOf(s, bootsel);
            && ResetOf(t, bootsel) == (if bootsel == (h.kind == Bootsel) then Hosted(x, h, s.now) else x)
            && t.mode == (match h case HostReset(kind, false) => Reset(kind) case _ => Running)
  {
    match h
    case HostOff(kind, writes) => HostOffIs(cfg, s, kind, writes, bootsel);
    case _ =>
  }

  lemma TimerMode(cfg: Config, s: Sys, t: Handler, bootsel: bool)
    requires Enabled(s, Timer(t))
    ensures var u := NextTimer(cfg, s, t);
            && ResetOf(u, bootsel) == ResetOf(s, bootsel)
            && u.mode == (match t case RebootBody(false) => Reset(Autonomous) case _ => Running)
  {
  }

  lemma CommandMode(cfg: Config, s: Sys, cmd: Command, bootsel: bool)
    requires Enabled(s, Cmd(cmd))
    ensures var t := NextCommand(cfg, s, cmd);
            ResetOf(t, bootsel) == ResetOf(s, bootsel) && t.mode == Running
  {
  }

  /**
   * A request of the host is due a second later, unless one of its kind is under way; its handler switches everything
   * off, and goes on to the reset exactly if that succeeds. The board is reset by these handlers and the autonomous
   * reboot, and by nothing else.
   */
  lemma HostStep(cfg: Config, s: Sys, step: Step, bootsel: bool)
    requires Enabled(s, step)
    ensures var t, x := Next(cfg, s, step), ResetOf(s, bootsel);
            && ResetOf(t, bootsel) ==
               (if step.Host? && bootsel == (step.host.kind == Bootsel) then Hosted(x, step.host, s.now) else x)
            && t.mode == (match step
                          case Host(HostReset(kind, false)) => Reset(kind)
                          case Timer(RebootBody(false)) => Reset(Autonomous)
                          case _ => Running)
  {
    match step
    case Cmd(cmd) => CommandMode(cfg, s, cmd, bootsel);
    case Timer(t) => TimerMode(cfg, s, t, bootsel);
    case Host(h) => HostActionIs(cfg, s, h, bootsel);
    case _ =>
  }

  // ----- The records -----

  /** A valid pulse whose pin was written but whose timer the kernel refuses. */
  predicate TimerRefused(r: Relay, step: Step) {
    match step
    case Cmd(PulseStep(ch, duration, w, scheduled, _)) =>
      ch < 6 && 10 <= duration <= 60000 && ch !in r.pulsing && w.Written? && !scheduled
    case _ => false
  }

  /** The records say when the lease was last renewed, when each pulse was started, and if a timer was refused. */
  lemma RecordStep(cfg: Config, s: Sys, step: Step, ch: nat)
    requires Enabled(s, step) && ch < 6
    ensures var t, r := Next(cfg, s, step), s.core.relay;
            && t.lastRenew == (if (step.Cmd? && Succeeds(r, step.cmd))
                                  || (step.Host? && step.host.HostOff? && NoneFails(step.host.writes))
                               then s.now else s.lastRenew)
            && |t.starts| == 6
            && t.starts[ch] == (if step.Cmd? && step.cmd.PulseStep? && step.cmd.ch == ch && Succeeds(r, step.cmd)
                                then s.now else s.starts[ch])
            && t.submitFailed == (s.submitFailed || TimerRefused(r, step))
            && t.now == s.now + if step.Tick? then step.ms else 0
  {
    match step
    case Cmd(cmd) => AnswerIs(cfg, s, cmd);
    case Host(h) =>
      if h.HostOff? {
        SetAllHandlers(cfg, s.core, s.now, {}, h.writes);
      }
    case _ =>
  }

  // ----- The start -----

  lemma BootReasons(cfg: Config, now: nat, reason: H.Reason)
    ensures H.Active(Boot(cfg, now).core.log, reason) <==> reason == H.RpcNotReady
    ensures !H.GpioReadyAfter(Boot(cfg, now).core.log) && H.MasksAfter(Boot(cfg, now).core.log) == ({}, {})
  {
    var owner := Tell(Start(now), H.SetCommOwnerTimedOut(false));
    var told := Tell(owner, H.SetCommRebootPending(false));
    FirmwareReasons.Heard(Start(now), H.SetCommOwnerTimedOut(false), reason);
    FirmwareReasons.Heard(owner, H.SetCommRebootPending(false), reason);
    FirmwareReasons.Heard(told.(relay := Init(cfg, now).relay), H.SetRelayState({}, {}), reason);
    var log := Boot(cfg, now).core.log;
    assert owner.log[..0] == [] && told.log[..1] == owner.log && log[..2] == told.log;
    assert !H.GpioReadyAfter(owner.log) && !H.GpioReadyAfter(told.log);
  }

  /** After a start everything is off, nothing is in flight, and the lease runs exactly under the owner policy. */
  lemma BootIs(cfg: Config, now: nat, ch: nat)
    requires ch < 6
    ensures var s := Boot(cfg, now);
            && WellFormed(s) && !s.core.relay.pins[ch] && ChannelOf(s.core.relay, ch) == Steady(false)
            && LeaseOf(s.core.relay) ==
               (if cfg.policy.AlwaysOnOwner? then Lease(true, Some(now + cfg.timeoutMs)) else Lease(false, None))
            && RebootOf(s.core.relay) == NO_REBOOT && FlightOf(s, ch) == Flight(0, 0, 0, 0, 0, 0)
            && ResetOf(s, true) == ResetOf(s, false) == ResetWork(None, 0, 0) && s.mode == Running
            && s.core.board.pending == [] && s.core.board.panel.pulsing == {} && !s.dog.started
            && forall reason :: H.Active(s.core.log, reason) <==> reason == H.RpcNotReady
  {
    forall reason
      ensures H.Active(Boot(cfg, now).core.log, reason) <==> reason == H.RpcNotReady
    {
      BootReasons(cfg, now, reason);
    }
  }
}
