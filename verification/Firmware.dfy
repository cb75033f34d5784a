/**
 * The firmware as one step system: the relay control plane, the health model, the watchdog supervisor and the host
 * reboot work of firmware/src/relay_mgmt.c, with time passing in between.
 */
module Firmware {
  import opened Common
  import opened RelaySpec
  import H = HealthSpec
  import Watchdog

  datatype ResetKind = HostReboot | Bootsel | Autonomous

  datatype Mode = Running | Reset(kind: ResetKind)

  const REBOOT_PENDING_INDICATION_MS: nat := 1000

  /**
   * Handlers in the middle of their work without relay_lock are counted: lease handlers that still have to submit the
   * reboot, or to warn of it, and host handlers that have switched everything off and still have to reset. The last
   * three fields record when the lease was last renewed, when each pulse was started, and whether the kernel has ever
   * refused the timer of a pulse.
   */
  datatype Sys = Sys(
    now: nat, core: Core, dog: Watchdog.State, host: Work, bootsel: Work, mode: Mode,
    leaseTails: nat, leaseWarns: nat, hostTails: nat, bootselTails: nat,
    lastRenew: nat, starts: seq<nat>, submitFailed: bool)

  /** A command of the host, with the answers the hardware and the kernel give while it runs. */
  datatype Command =
    | SetStep(ch: nat, on: bool, w: Write)
    | SetAllStep(mask: set<nat>, writes: seq<Write>)
    | PulseStep(ch: nat, duration: nat, w: Write, scheduled: bool, off: Write)
    | HeartbeatStep

  /** A timer of relay.c expires (Fire: its handler is in flight), or a part of its handler runs. */
  datatype Handler =
    | PulseFire(ch: nat)
    | PulseBody(ch: nat, w: Write)
    | LeaseFire
    | LeaseBody(writes: seq<Write>)
    | LeaseSubmission(scheduled: bool)
    | LeaseWarning(warned: bool)
    | WarningFire
    | WarningBody
    | RebootFire
    | RebootBody(back: bool)

  /** The watchdog supervisor starts, its handler samples the health, or the rest of its handler runs. */
  datatype DogAction =
    | DogStart(ready: bool, setUp: bool, accepted: bool)
    | DogSample
    | DogBody(fed: bool, accepted: bool)

  /**
   * A reboot or BOOTSEL request of the host, the expiry of its timer, and its handler: everything off, then, with
   * relay_lock dropped and USB detached in between, the reset.
   */
  datatype HostAction =
    | HostRequest(kind: ResetKind, scheduled: bool)
    | HostFire(kind: ResetKind)
    | HostOff(kind: ResetKind, writes: seq<Write>)
    | HostReset(kind: ResetKind, back: bool)

  /** One indivisible action of the system; Refreshing starts a publication of the health snapshot by some module. */
  datatype Step =
    | Cmd(cmd: Command)
    | Timer(handler: Handler)
    | Dog(dog: DogAction)
    | Host(host: HostAction)
    | Publish(i: nat)
    | Refreshing
    | Note(event: H.Event)
    | Tick(ms: nat)

  function Boot(cfg: Config, now: nat): Sys {
    Sys(now, Init(cfg, now), Watchdog.STOPPED, IDLE, IDLE, Running, 0, 0, 0, 0, now, seq(CHANNELS, _ => 0), false)
  }

  predicate Due(w: Work, now: nat) {
    w.due.Some? && w.due.value <= now
  }

  /** Time may advance to t without passing the deadline. */
  predicate NotPast(due: Option<nat>, t: nat) {
    due.None? || t <= due.value
  }

  predicate MayAdvance(s: Sys, t: nat) {
    var r := s.core.relay;
    && (forall ch :: 0 <= ch < |r.pulseWork| ==> NotPast(r.pulseWork[ch].due, t))
    && NotPast(r.lease.due, t) && NotPast(r.warning.due, t) && NotPast(r.reboot.due, t)
    && NotPast(s.dog.due, t) && NotPast(s.host.due, t) && NotPast(s.bootsel.due, t)
  }

  function HostWork(s: Sys, kind: ResetKind): Work {
    if kind == Bootsel then s.bootsel else s.host
  }

  function WithHostWork(s: Sys, kind: ResetKind, w: Work): Sys {
    if kind == Bootsel then s.(bootsel := w) else s.(host := w)
  }

  function ResetTails(s: Sys, kind: ResetKind): nat {
    if kind == Bootsel then s.bootselTails else s.hostTails
  }

  function WithResetTails(s: Sys, kind: ResetKind, n: nat): Sys {
    if kind == Bootsel then s.(bootselTails := n) else s.(hostTails := n)
  }

  predicate WellFormed(s: Sys) {
    Shaped(s.core.relay) && |s.starts| == CHANNELS
  }

  predicate TimerEnabled(s: Sys, t: Handler)
    requires WellFormed(s)
  {
    var r := s.core.relay;
    match t
    case PulseFire(ch) => ch < CHANNELS && Due(r.pulseWork[ch], s.now)
    case PulseBody(ch, _) => ch < CHANNELS && r.pulseWork[ch].running > 0
    case LeaseFire => Due(r.lease, s.now)
    case LeaseBody(writes) => r.lease.running > 0 && |writes| == CHANNELS
    case LeaseSubmission(_) => s.leaseTails > 0
    case LeaseWarning(_) => s.leaseWarns > 0
    case WarningFire => Due(r.warning, s.now)
    case WarningBody => r.warning.running > 0
    case RebootFire => Due(r.reboot, s.now)
    case RebootBody(_) => r.reboot.running > 0
  }

  predicate HostEnabled(s: Sys, h: HostAction) {
    h.kind != Autonomous &&
    match h
    case HostRequest(_, _) => true
    case HostFire(kind) => Due(HostWork(s, kind), s.now)
    case HostOff(kind, writes) => HostWork(s, kind).running > 0 && |writes| == CHANNELS
    case HostReset(kind, _) => ResetTails(s, kind) > 0
  }

  predicate Enabled(s: Sys, step: Step) {
    && WellFormed(s) && s.mode == Running
    && match step
       case Cmd(cmd) => cmd.SetAllStep? ==> |cmd.writes| == CHANNELS
       case Timer(t) => TimerEnabled(s, t)
       case Dog(d) =>
         (d.DogSample? ==> s.dog.due.Some? && s.dog.due.value <= s.now && s.dog.sample.None?)
         && (d.DogBody? ==> s.dog.sample.Some?)
       case Host(h) => HostEnabled(s, h)
       case Publish(i) => i < |s.core.board.pending| && s.core.board.pending[i] != []
       case Refreshing => true
       case Note(e) => e.SetRpcReady? || e.SetIndicatorDegraded? || e.SetRelayGpioReady?
       case Tick(ms) => MayAdvance(s, s.now + ms)
  }

  /** The system after a control command that answered ret. */
  function Renewed(s: Sys, result: (Core, Ret)): Sys {
    s.(core := result.0, lastRenew := if result.1 == Success then s.now else s.lastRenew)
  }

  function WithRelay(s: Sys, r: Relay): Sys {
    s.(core := s.core.(relay := r))
  }

  function NextCommand(cfg: Config, s: Sys, cmd: Command): Sys
    requires Enabled(s, Cmd(cmd))
  {
    match cmd
    case SetStep(ch, on, w) =>
      Renewed(s, Set(cfg, s.core, s.now, ch, on, w))
    case SetAllStep(mask, writes) =>
      Renewed(s, SetAll(cfg, s.core, s.now, mask, writes))
    case PulseStep(ch, duration, w, scheduled, off) =>
      var result := Pulse(cfg, s.core, s.now, ch, duration, w, scheduled, off);
      Renewed(s, result)
        .(starts := if result.1 == Success then s.starts[ch := s.now] else s.starts,
          submitFailed := s.submitFailed || (result.1 == IoFailure && w.Written?))
    case HeartbeatStep => s.(core := Heartbeat(cfg, s.core, s.now), lastRenew := s.now)
  }

  function NextTimer(cfg: Config, s: Sys, t: Handler): Sys
    requires Enabled(s, Timer(t))
  {
    var r := s.core.relay;
    match t
    case PulseFire(ch) => WithRelay(s, r.(pulseWork := r.pulseWork[ch := r.pulseWork[ch].Fire()]))
    case PulseBody(ch, w) =>
      var s' := WithRelay(s, r.(pulseWork := r.pulseWork[ch := r.pulseWork[ch].Finish()]));
      s'.(core := PulseExpired(cfg, s'.core, s.now, ch, w))
    case LeaseFire => WithRelay(s, r.(lease := r.lease.Fire()))
    case LeaseBody(writes) =>
      var s' := WithRelay(s, r.(lease := r.lease.Finish()));
      s'.(core := LeaseExpired(cfg, s'.core, s.now, writes),
          leaseTails := if LeaseWantsReboot(cfg, s'.core, writes) then s.leaseTails + 1 else s.leaseTails)
    case LeaseSubmission(scheduled) =>
      s.(core := LeaseSubmit(cfg, s.core, s.now, scheduled), leaseTails := s.leaseTails - 1,
         leaseWarns := if scheduled then s.leaseWarns + 1 else s.leaseWarns)
    case LeaseWarning(warned) =>
      s.(core := LeaseWarn(cfg, s.core, s.now, warned), leaseWarns := s.leaseWarns - 1)
    case WarningFire => WithRelay(s, r.(warning := r.warning.Fire()))
    case WarningBody =>
      var s' := WithRelay(s, r.(warning := r.warning.Finish()));
      s'.(core := WarningExpired(s'.core))
    case RebootFire => WithRelay(s, r.(reboot := r.reboot.Fire()))
    case RebootBody(back) =>
      var s' := WithRelay(s, r.(reboot := r.reboot.Finish()));
      if back then s'.(core := Tell(s'.core, H.RecordRebootFailed)) else s'.(mode := Reset(Autonomous))
  }

  function NextDog(cfg: Config, s: Sys, d: DogAction): Sys
    requires Enabled(s, Dog(d))
  {
    var next := s.now + cfg.feedIntervalMs;
    match d
    case DogStart(ready, setUp, accepted) =>
      var (dog, log) := Watchdog.Start(s.dog, s.core.log, next, ready && Watchdog.RuntimeReady(s.core.log),
                                       setUp, accepted);
      s.(dog := dog, core := s.core.(log := log))
    case DogSample => s.(dog := Watchdog.Sample(s.dog, s.core.log))
    case DogBody(fed, accepted) =>
      var (dog, log) := Watchdog.Work(s.dog, s.core.log, next, fed, accepted);
      s.(dog := dog, core := s.core.(log := log))
  }

  function NextHost(cfg: Config, s: Sys, h: HostAction): Sys
    requires Enabled(s, Host(h))
  {
    match h
    case HostRequest(kind, scheduled) =>
      if !scheduled then s.(core := Tell(s.core, H.RecordRebootFailed))
      else
        var s' := WithHostWork(s, kind, HostWork(s, kind).Schedule(s.now + REBOOT_PENDING_INDICATION_MS));
        s'.(core := Tell(s.core, H.SetHostRebootPending(true)))
    case HostFire(kind) => WithHostWork(s, kind, HostWork(s, kind).Fire())
    case HostOff(kind, writes) =>
      var s' := WithHostWork(s, kind, HostWork(s, kind).Finish());
      var result := SetAll(cfg, s.core, s.now, {}, writes);
      var off := Renewed(s', result);
      if result.1 == Success then WithResetTails(off, kind, ResetTails(off, kind) + 1)
      else off.(core := Tell(off.core, H.RecordRebootFailed))
    case HostReset(kind, back) =>
      var s' := WithResetTails(s, kind, ResetTails(s, kind) - 1);
      if back then s'.(core := Tell(s.core, H.RecordRebootFailed)) else s'.(mode := Reset(kind))
  }

  function Next(cfg: Config, s: Sys, step: Step): Sys
    requires Enabled(s, step)
  {
    match step
    case Cmd(cmd) => NextCommand(cfg, s, cmd)
    case Timer(t) => NextTimer(cfg, s, t)
    case Dog(d) => NextDog(cfg, s, d)
    case Host(h) => NextHost(cfg, s, h)
    case Publish(i) => s.(core := RunJob(s.core, i, s.now))
    case Refreshing => s.(core := Refresh(s.core))
    case Note(e) => s.(core := Tell(s.core, e))
    case Tick(ms) => s.(now := s.now + ms)
  }

  /** The steps lead from s to t. */
  ghost predicate Run(cfg: Config, s: Sys, steps: seq<Step>, t: Sys)
    decreases |steps|
  {
    if steps == [] then s == t
    else Enabled(s, steps[0]) && Run(cfg, Next(cfg, s, steps[0]), steps[1..], t)
  }

  predicate IoFailed(s: Sys) {
    H.Active(s.core.log, H.RelayIoFailed)
  }
}
