/** What every step does to each channel, to the lease and to the autonomous reboot, written out from the step alone. */
module FirmwareOutcomes {
  import opened Common
  import opened RelaySpec
  import opened Firmware

  predicate NoneFails(writes: seq<Write>) {
    forall i :: 0 <= i < |writes| ==> writes[i].Written?
  }

  lemma NoneFailsIff(writes: seq<Write>)
    ensures NoneFails(writes) <==> Succeeding(writes) == |writes|
  {
  }

  /** What makes a command succeed; a heartbeat always does. */
  predicate Succeeds(r: Relay, cmd: Command) {
    match cmd
    case SetStep(ch, _, w) => ch < 6 && w.Written?
    case SetAllStep(mask, writes) => mask <= {0, 1, 2, 3, 4, 5} && NoneFails(writes)
    case PulseStep(ch, duration, w, scheduled, _) =>
      ch < 6 && 10 <= duration <= 60000 && ch !in r.pulsing && w.Written? && scheduled
    case HeartbeatStep => true
  }

  /** A command that succeeds answers so; otherwise it says why it does not. */
  function Answer(r: Relay, cmd: Command): Ret {
    if Succeeds(r, cmd) then Success
    else match cmd
    case SetStep(ch, _, _) => if ch >= 6 then InvalidArgument else IoFailure
    case SetAllStep(mask, _) => if mask <= {0, 1, 2, 3, 4, 5} then IoFailure else InvalidArgument
    case PulseStep(ch, duration, _, _, _) =>
      if ch >= 6 || duration < 10 || duration > 60000 then InvalidArgument
      else if ch in r.pulsing then Busy
      else IoFailure
    case HeartbeatStep => Success
  }

  /** The answer of the relay module. */
  function Answered(cfg: Config, s: Sys, cmd: Command): Ret
    requires Enabled(s, Cmd(cmd))
  {
    match cmd
    case SetStep(ch, on, w) => Set(cfg, s.core, s.now, ch, on, w).1
    case SetAllStep(mask, writes) => SetAll(cfg, s.core, s.now, mask, writes).1
    case PulseStep(ch, duration, w, scheduled, off) =>
      Pulse(cfg, s.core, s.now, ch, duration, w, scheduled, off).1
    case HeartbeatStep => Success
  }

  lemma AnswerIs(cfg: Config, s: Sys, cmd: Command)
    requires Enabled(s, Cmd(cmd))
    ensures Answered(cfg, s, cmd) == Answer(s.core.relay, cmd)
  {
    if cmd.SetAllStep? {
      NoneFailsIff(cmd.writes);
    }
  }

  // ----- One channel -----

  datatype Channel = Channel(on: bool, pulsing: bool, duration: nat, due: Option<nat>)

  function ChannelOf(r: Relay, ch: nat): Channel
    requires Sized(r) && ch < 6
  {
    Channel(ch in r.on, ch in r.pulsing, r.durations[ch], r.pulseWork[ch].due)
  }

  function Steady(on: bool): Channel {
    Channel(on, false, 0, None)
  }

  /** A timer that is pending already is not submitted again. */
  function Submitted(due: Option<nat>, at: nat): Option<nat> {
    if due.Some? then due else Some(at)
  }

  /** A channel after a command, from the channel before it. */
  function Commanded(x: Channel, cmd: Command, ch: nat, now: nat): Channel {
    match cmd
    case SetStep(c, on, w) => if c != ch then x else Steady(if w.Written? then on else x.on)
    case SetAllStep(mask, writes) =>
      if !(mask <= {0, 1, 2, 3, 4, 5}) then x else Steady(if NoneFails(writes) then ch in mask else x.on)
    case PulseStep(c, duration, w, scheduled, off) =>
      if c != ch || duration < 10 || duration > 60000 || x.pulsing || w.WriteFailed? then x
      else if scheduled then Channel(true, true, duration, Submitted(x.due, now + duration))
      else Channel(off.WriteFailed?, false, 0, x.due)
    case HeartbeatStep => x
  }

  /** A channel after a step; a handler of the lease acts only while the lease is armed. */
  function Stepped(x: Channel, step: Step, ch: nat, now: nat, armed: bool): Channel {
    match step
    case Cmd(cmd) => Commanded(x, cmd, ch, now)
    case Timer(t) =>
      (match t
       case PulseFire(c) => if c == ch then x.(due := None) else x
       case PulseBody(c, w) =>
         if c != ch || !x.pulsing then x else Channel(x.on && w.WriteFailed?, false, 0, x.due)
       case LeaseBody(writes) => if armed then Steady(x.on && !NoneFails(writes)) else x
       case _ => x)
    case Host(h) => if h.HostOff? then Steady(x.on && !NoneFails(h.writes)) else x
    case _ => x
  }

  lemma RenewChannel(cfg: Config, c: Core, now: nat, ch: nat)
    requires Sized(c.relay) && ch < 6
    ensures Sized(Renew(cfg, c, now).relay) && ChannelOf(Renew(cfg, c, now).relay, ch) == ChannelOf(c.relay, ch)
  {
  }

  lemma SetChannel1(cfg: Config, c: Core, now: nat, n: nat, on: bool, w: Write, ch: nat)
    requires Shaped(c.relay) && ch < 6
    ensures var d := Set(cfg, c, now, n, on, w).0;
            Sized(d.relay) && ChannelOf(d.relay, ch) == Commanded(ChannelOf(c.relay, ch), SetStep(n, on, w), ch, now)
  {
    if n < 6 && w.Written? {
      RenewChannel(cfg, SetChannel(c.(relay := CancelPulses(c.relay, {n})), n, on, w), now, ch);
    }
  }

  lemma SetAllChannel(cfg: Config, c: Core, now: nat, mask: set<nat>, writes: seq<Write>, ch: nat)
    requires Shaped(c.relay) && |writes| == 6 && ch < 6
    ensures var d := SetAll(cfg, c, now, mask, writes).0;
            && Sized(d.relay)
            && ChannelOf(d.relay, ch) == Commanded(ChannelOf(c.relay, ch), SetAllStep(mask, writes), ch, now)
  {
    NoneFailsIff(writes);
    if mask <= ALL && NoneFails(writes) {
      RenewChannel(cfg, ApplyState(c.(relay := CancelPulses(c.relay, ALL)), mask, writes), now, ch);
    }
  }

  lemma PulseChannel(cfg: Config, c: Core, now: nat, n: nat, duration: nat, w: Write, scheduled: bool, off: Write,
                     ch: nat)
    requires Shaped(c.relay) && ch < 6
    ensures var d := Pulse(cfg, c, now, n, duration, w, scheduled, off).0;
            && Sized(d.relay)
            && ChannelOf(d.relay, ch) ==
               Commanded(ChannelOf(c.relay, ch), PulseStep(n, duration, w, scheduled, off), ch, now)
  {
    if n < 6 && 10 <= duration <= 60000 && n !in c.relay.pulsing && w.Written? && scheduled {
      var written := SetChannel(c, n, true, w);
      RenewChannel(cfg, written.(relay := StartPulse(written.relay, n, duration, now + duration)), now, ch);
    }
  }

  lemma CommandChannel(cfg: Config, s: Sys, cmd: Command, ch: nat)
    requires Enabled(s, Cmd(cmd)) && ch < 6
    ensures var t := NextCommand(cfg, s, cmd);
            Sized(t.core.relay) &&
            ChannelOf(t.core.relay, ch) == Commanded(ChannelOf(s.core.relay, ch), cmd, ch, s.now)
  {
    match cmd
    case SetStep(n, on, w) => SetChannel1(cfg, s.core, s.now, n, on, w, ch);
    case SetAllStep(mask, writes) => SetAllChannel(cfg, s.core, s.now, mask, writes, ch);
    case PulseStep(n, duration, w, scheduled, off) =>
      PulseChannel(cfg, s.core, s.now, n, duration, w, scheduled, off, ch);
    case HeartbeatStep => RenewChannel(cfg, s.core, s.now, ch);
  }

  lemma PulseExpiredChannel(cfg: Config, c: Core, now: nat, n: nat, w: Write, ch: nat)
    requires Shaped(c.relay) && n < 6 && ch < 6
    ensures var d := PulseExpired(cfg, c, now, n, w);
            && Sized(d.relay)
            && ChannelOf(d.relay, ch) ==
               Stepped(ChannelOf(c.relay, ch), Timer(PulseBody(n, w)), ch, now, c.relay.armed)
  {
  }

  lemma PulseBodyChannel(cfg: Config, s: Sys, n: nat, w: Write, ch: nat)
    requires Enabled(s, Timer(PulseBody(n, w))) && ch < 6
    ensures var t := NextTimer(cfg, s, PulseBody(n, w));
            && Sized(t.core.relay)
            && ChannelOf(t.core.relay, ch) ==
               Stepped(ChannelOf(s.core.relay, ch), Timer(PulseBody(n, w)), ch, s.now, s.core.relay.armed)
  {
    var r := s.core.relay;
    var finished := r.(pulseWork := r.pulseWork[n := r.pulseWork[n].Finish()]);
    PulseExpiredChannel(cfg, s.core.(relay := finished), s.now, n, w, ch);
  }

  lemma AfterLeaseChannel(cfg: Config, r: Relay, now: nat, ch: nat)
    requires Sized(r) && ch < 6
    ensures Sized(AfterLease(cfg, r, now)) && ChannelOf(AfterLease(cfg, r, now), ch) == ChannelOf(r, ch)
  {
  }

  lemma LeaseExpiredChannel(cfg: Config, c: Core, now: nat, writes: seq<Write>, ch: nat)
    requires Shaped(c.relay) && |writes| == 6 && ch < 6
    ensures var d := LeaseExpired(cfg, c, now, writes);
            && Sized(d.relay)
            && ChannelOf(d.relay, ch) ==
               Stepped(ChannelOf(c.relay, ch), Timer(LeaseBody(writes)), ch, now, c.relay.armed)
  {
    NoneFailsIff(writes);
    if c.relay.armed && NoneFails(writes) {
      var written := ApplyState(c.(relay := CancelPulses(c.relay, ALL)), {}, writes);
      AfterLeaseChannel(cfg, written.relay, now, ch);
    }
  }

  lemma LeaseBodyChannel(cfg: Config, s: Sys, writes: seq<Write>, ch: nat)
    requires Enabled(s, Timer(LeaseBody(writes))) && ch < 6
    ensures var t := NextTimer(cfg, s, LeaseBody(writes));
            && Sized(t.core.relay)
            && ChannelOf(t.core.relay, ch) ==
               Stepped(ChannelOf(s.core.relay, ch), Timer(LeaseBody(writes)), ch, s.now, s.core.relay.armed)
  {
    var r := s.core.relay;
    LeaseExpiredChannel(cfg, s.core.(relay := r.(lease := r.lease.Finish())), s.now, writes, ch);
  }

  lemma TimerChannel(cfg: Config, s: Sys, t: Handler, ch: nat)
    requires Enabled(s, Timer(t)) && ch < 6
    ensures var u := NextTimer(cfg, s, t);
            Sized(u.core.relay) && ChannelOf(u.core.relay, ch) ==
                                   Stepped(ChannelOf(s.core.relay, ch), Timer(t), ch, s.now, s.core.relay.armed)
  {
    match t
    case PulseBody(n, w) => PulseBodyChannel(cfg, s, n, w, ch);
    case LeaseBody(writes) => LeaseBodyChannel(cfg, s, writes, ch);
    case _ =>
  }

  lemma HostChannel(cfg: Config, s: Sys, h: HostAction, ch: nat)
    requires Enabled(s, Host(h)) && ch < 6
    ensures var t := NextHost(cfg, s, h);
            Sized(t.core.relay) && ChannelOf(t.core.relay, ch) ==
                                   Stepped(ChannelOf(s.core.relay, ch), Host(h), ch, s.now, s.core.relay.armed)
  {
    if h.HostOff? {
      SetAllChannel(cfg, s.core, s.now, {}, h.writes, ch);
    }
  }

  /** Every step takes every channel where the step and that channel alone say. */
  lemma ChannelStep(cfg: Config, s: Sys, step: Step, ch: nat)
    requires Enabled(s, step) && ch < 6
    ensures var t := Next(cfg, s, step);
            Sized(t.core.relay) && ChannelOf(t.core.relay, ch) ==
                                   Stepped(ChannelOf(s.core.relay, ch), step, ch, s.now, s.core.relay.armed)
  {
    match step
    case Cmd(cmd) => CommandChannel(cfg, s, cmd, ch);
    case Timer(t) => TimerChannel(cfg, s, t, ch);
    case Host(h) => HostChannel(cfg, s, h, ch);
    case Publish(i) =>
    case _ =>
  }

  // ----- The lease -----

  /** The lease wants its timer: always under the owner policy, under the other one while a relay is on or pulsing. */
  predicate Wanted(cfg: Config, r: Relay) {
    cfg.policy.AlwaysOnOwner? || (cfg.policy.EnergizedOnly? && (r.on != {} || r.pulsing != {}))
  }

  datatype Lease = Lease(armed: bool, due: Option<nat>)

  function LeaseOf(r: Relay): Lease {
    Lease(r.armed, r.lease.due)
  }

  /** A lease just renewed, for the relays r. */
  function Restarted(cfg: Config, r: Relay, now: nat): Lease {
    if Wanted(cfg, r) then Lease(true, Some(now + cfg.timeoutMs)) else Lease(false, None)
  }

  /** The lease after a handler of relay.c has left the relays as r. */
  function LeaseHandled(cfg: Config, x: Lease, pulsing: set<nat>, t: Handler, r: Relay, now: nat): Lease {
    match t
    case LeaseFire => x.(due := None)
    case LeaseBody(writes) =>
      if !x.armed || !NoneFails(writes) then x
      else if cfg.policy == AlwaysOnOwner(false) then Lease(true, Some(now + cfg.timeoutMs))
      else x.(armed := false)
    case PulseBody(ch, w) =>
      if ch in pulsing && w.Written? && cfg.policy.EnergizedOnly? && r.on == {} && r.pulsing == {}
      then Lease(false, None)
      else x
    case _ => x
  }

  lemma CommandLeaseIs(cfg: Config, s: Sys, cmd: Command)
    requires Enabled(s, Cmd(cmd))
    ensures var t := NextCommand(cfg, s, cmd);
            && t.core.relay.lease.running == s.core.relay.lease.running
            && LeaseOf(t.core.relay) ==
               (if Succeeds(s.core.relay, cmd) then Restarted(cfg, t.core.relay, s.now) else LeaseOf(s.core.relay))
  {
    match cmd
    case SetStep(ch, on, w) => SetLeaseIs(cfg, s.core, s.now, ch, on, w);
    case SetAllStep(mask, writes) => SetAllLeaseIs(cfg, s.core, s.now, mask, writes);
    case PulseStep(ch, duration, w, scheduled, off) =>
      PulseLeaseIs(cfg, s.core, s.now, ch, duration, w, scheduled, off);
    case HeartbeatStep => RenewLeaseIs(cfg, s.core, s.now);
  }

  predicate LeaseRestarted(cfg: Config, r: Relay, d: Relay, now: nat) {
    d.lease.running == r.lease.running && LeaseOf(d) == Restarted(cfg, d, now)
  }

  predicate LeaseSame(r: Relay, d: Relay) {
    d.lease.running == r.lease.running && LeaseOf(d) == LeaseOf(r)
  }

  lemma RenewLeaseIs(cfg: Config, c: Core, now: nat)
    ensures LeaseRestarted(cfg, c.relay, Renew(cfg, c, now).relay, now)
  {
  }

  lemma SetLeaseIs(cfg: Config, c: Core, now: nat, ch: nat, on: bool, w: Write)
    requires Shaped(c.relay)
    ensures var (d, ret) := Set(cfg, c, now, ch, on, w);
            if ret == Success then LeaseRestarted(cfg, c.relay, d.relay, now) else LeaseSame(c.relay, d.relay)
  {
    if ch < 6 && w.Written? {
      RenewLeaseIs(cfg, SetChannel(c.(relay := CancelPulses(c.relay, {ch})), ch, on, w), now);
    }
  }

  lemma SetAllLeaseIs(cfg: Config, c: Core, now: nat, mask: set<nat>, writes: seq<Write>)
    requires Shaped(c.relay) && |writes| == 6
    ensures var (d, ret) := SetAll(cfg, c, now, mask, writes);
            && (ret == Success <==> mask <= {0, 1, 2, 3, 4, 5} && NoneFails(writes))
            && if ret == Success then LeaseRestarted(cfg, c.relay, d.relay, now) else LeaseSame(c.relay, d.relay)
  {
    NoneFailsIff(writes);
    if mask <= ALL && NoneFails(writes) {
      RenewLeaseIs(cfg, ApplyState(c.(relay := CancelPulses(c.relay, ALL)), mask, writes), now);
    }
  }

  lemma PulseLeaseIs(cfg: Config, c: Core, now: nat, ch: nat, duration: nat, w: Write, scheduled: bool, off: Write)
    requires Shaped(c.relay)
    ensures var (d, ret) := Pulse(cfg, c, now, ch, duration, w, scheduled, off);
            if ret == Success then LeaseRestarted(cfg, c.relay, d.relay, now) else LeaseSame(c.relay, d.relay)
  {
    if ch < 6 && 10 <= duration <= 60000 && ch !in c.relay.pulsing && w.Written? && scheduled {
      var written := SetChannel(c, ch, true, w);
      RenewLeaseIs(cfg, written.(relay := StartPulse(written.relay, ch, duration, now + duration)), now);
    }
  }

  lemma LeaseExpiredIs(cfg: Config, c: Core, now: nat, writes: seq<Write>)
    requires Shaped(c.relay) && |writes| == 6
    ensures var d := LeaseExpired(cfg, c, now, writes);
            LeaseOf(d.relay) ==
            LeaseHandled(cfg, LeaseOf(c.relay), c.relay.pulsing, LeaseBody(writes), d.relay, now)
  {
    NoneFailsIff(writes);
  }

  lemma PulseExpiredLease(cfg: Config, c: Core, now: nat, ch: nat, w: Write)
    requires Shaped(c.relay) && ch < 6
    ensures var d := PulseExpired(cfg, c, now, ch, w);
            LeaseOf(d.relay) ==
            LeaseHandled(cfg, LeaseOf(c.relay), c.relay.pulsing, PulseBody(ch, w), d.relay, now)
  {
  }

  lemma TimerLeaseIs(cfg: Config, s: Sys, t: Handler)
    requires Enabled(s, Timer(t))
    ensures var u := NextTimer(cfg, s, t);
            LeaseOf(u.core.relay) ==
            LeaseHandled(cfg, LeaseOf(s.core.relay), s.core.relay.pulsing, t, u.core.relay, s.now)
  {
    var r := s.core.relay;
    match t
    case PulseBody(ch, w) =>
      var finished := r.(pulseWork := r.pulseWork[ch := r.pulseWork[ch].Finish()]);
      PulseExpiredLease(cfg, s.core.(relay := finished), s.now, ch, w);
    case LeaseBody(writes) => LeaseExpiredIs(cfg, s.core.(relay := r.(lease := r.lease.Finish())), s.now, writes);
    case _ =>
  }

  /** Every step takes the lease where the step and the relays it leaves say. */
  lemma LeaseStep(cfg: Config, s: Sys, step: Step)
    requires Enabled(s, step)
    ensures var t, x := Next(cfg, s, step), LeaseOf(s.core.relay);
            LeaseOf(t.core.relay) ==
            match step
            case Cmd(cmd) => if Succeeds(s.core.relay, cmd) then Restarted(cfg, t.core.relay, s.now) else x
            case Timer(h) => LeaseHandled(cfg, x, s.core.relay.pulsing, h, t.core.relay, s.now)
            case Host(h) =>
              if h.HostOff? && NoneFails(h.writes) then Restarted(cfg, t.core.relay, s.now) else x
            case _ => x
  {
    match step
    case Cmd(cmd) => CommandLeaseIs(cfg, s, cmd);
    case Timer(t) => TimerLeaseIs(cfg, s, t);
    case Host(h) =>
      if h.HostOff? {
        SetAllLeaseIs(cfg, s.core, s.now, {}, h.writes);
      }
    case _ =>
  }

  // ----- The autonomous reboot -----

  datatype Reboot = Reboot(scheduled: bool, warned: bool, warning: Option<nat>, due: Option<nat>)

  const NO_REBOOT: Reboot := Reboot(false, false, None, None)

  function RebootOf(r: Relay): Reboot {
    Reboot(r.rebootScheduled, r.warningScheduled, r.warning.due, r.reboot.due)
  }

  /** How long after the lease expired the board resets itself. */
  function Delay(cfg: Config): nat {
    if cfg.policy == AlwaysOnOwner(true) then cfg.rebootDelayMs else 0
  }

  function RebootHandled(cfg: Config, x: Reboot, armed: bool, t: Handler, now: nat): Reboot {
    match t
    case LeaseBody(writes) =>
      if armed && NoneFails(writes) && cfg.policy == AlwaysOnOwner(true) then x.(scheduled := true, warned := true)
      else x
    case LeaseSubmission(true) => x.(due := Submitted(x.due, now + cfg.rebootDelayMs))
    case LeaseSubmission(false) => Reboot(false, false, None, x.due)
    case LeaseWarning(warned) =>
      if warned && Delay(cfg) > 10000 then x.(warning := Submitted(x.warning, now + Delay(cfg) - 10000)) else x
    case WarningFire => x.(warning := None)
    case WarningBody => if x.scheduled then x.(warned := false) else x
    case RebootFire => x.(due := None)
    case _ => x
  }

  predicate RebootCanceled(r: Relay, d: Relay) {
    d.reboot.running == r.reboot.running && d.warning.running == r.warning.running && RebootOf(d) == NO_REBOOT
  }

  predicate RebootSame(r: Relay, d: Relay) {
    d.reboot == r.reboot && d.warning == r.warning && RebootOf(d) == RebootOf(r)
  }

  lemma RenewRebootIs(cfg: Config, c: Core, now: nat)
    ensures RebootCanceled(c.relay, Renew(cfg, c, now).relay)
  {
  }

  lemma SetRebootIs(cfg: Config, c: Core, now: nat, ch: nat, on: bool, w: Write)
    requires Shaped(c.relay)
    ensures var (d, ret) := Set(cfg, c, now, ch, on, w);
            if ret == Success then RebootCanceled(c.relay, d.relay) else RebootSame(c.relay, d.relay)
  {
    if ch < 6 && w.Written? {
      RenewRebootIs(cfg, SetChannel(c.(relay := CancelPulses(c.relay, {ch})), ch, on, w), now);
    }
  }

  lemma SetAllRebootIs(cfg: Config, c: Core, now: nat, mask: set<nat>, writes: seq<Write>)
    requires Shaped(c.relay) && |writes| == 6
    ensures var (d, ret) := SetAll(cfg, c, now, mask, writes);
            && (ret == Success <==> mask <= {0, 1, 2, 3, 4, 5} && NoneFails(writes))
            && if ret == Success then RebootCanceled(c.relay, d.relay) else RebootSame(c.relay, d.relay)
  {
    NoneFailsIff(writes);
    if mask <= ALL && NoneFails(writes) {
      RenewRebootIs(cfg, ApplyState(c.(relay := CancelPulses(c.relay, ALL)), mask, writes), now);
    }
  }

  lemma PulseRebootIs(cfg: Config, c: Core, now: nat, ch: nat, duration: nat, w: Write, scheduled: bool, off: Write)
    requires Shaped(c.relay)
    ensures var (d, ret) := Pulse(cfg, c, now, ch, duration, w, scheduled, off);
            if ret == Success then RebootCanceled(c.relay, d.relay) else RebootSame(c.relay, d.relay)
  {
    if ch < 6 && 10 <= duration <= 60000 && ch !in c.relay.pulsing && w.Written? && scheduled {
      var written := SetChannel(c, ch, true, w);
      RenewRebootIs(cfg, written.(relay := StartPulse(written.relay, ch, duration, now + duration)), now);
    }
  }

  lemma CommandRebootIs(cfg: Config, s: Sys, cmd: Command)
    requires Enabled(s, Cmd(cmd))
    ensures var t := NextCommand(cfg, s, cmd);
            if Succeeds(s.core.relay, cmd) then RebootCanceled(s.core.relay, t.core.relay)
            else RebootSame(s.core.relay, t.core.relay)
  {
    match cmd
    case SetStep(ch, on, w) => SetRebootIs(cfg, s.core, s.now, ch, on, w);
    case SetAllStep(mask, writes) => SetAllRebootIs(cfg, s.core, s.now, mask, writes);
    case PulseStep(ch, duration, w, scheduled, off) =>
      PulseRebootIs(cfg, s.core, s.now, ch, duration, w, scheduled, off);
    case HeartbeatStep => RenewRebootIs(cfg, s.core, s.now);
  }

  lemma LeaseExpiredReboot(cfg: Config, c: Core, now: nat, writes: seq<Write>)
    requires Shaped(c.relay) && |writes| == 6
    ensures var d := LeaseExpired(cfg, c, now, writes);
            RebootOf(d.relay) == RebootHandled(cfg, RebootOf(c.relay), c.relay.armed, LeaseBody(writes), now)
  {
    NoneFailsIff(writes);
  }

  lemma PulseExpiredReboot(cfg: Config, c: Core, now: nat, ch: nat, w: Write)
    requires Shaped(c.relay) && ch < 6
    ensures RebootOf(PulseExpired(cfg, c, now, ch, w).relay) == RebootOf(c.relay)
  {
  }

  lemma TimerRebootIs(cfg: Config, s: Sys, t: Handler)
    requires Enabled(s, Timer(t))
    ensures var u := NextTimer(cfg, s, t);
            RebootOf(u.core.relay) == RebootHandled(cfg, RebootOf(s.core.relay), s.core.relay.armed, t, s.now)
  {
    var r := s.core.relay;
    match t
    case PulseBody(ch, w) =>
      var finished := r.(pulseWork := r.pulseWork[ch := r.pulseWork[ch].Finish()]);
      PulseExpiredReboot(cfg, s.core.(relay := finished), s.now, ch, w);
    case LeaseBody(writes) => LeaseExpiredReboot(cfg, s.core.(relay := r.(lease := r.lease.Finish())), s.now, writes);
    case _ =>
  }

  /** Every step takes the autonomous reboot where the step says; what succeeds cancels it. */
  lemma RebootStep(cfg: Config, s: Sys, step: Step)
    requires Enabled(s, step)
    ensures var x, r := RebootOf(s.core.relay), s.core.relay;
            RebootOf(Next(cfg, s, step).core.relay) ==
            match step
            case Cmd(cmd) => if Succeeds(r, cmd) then NO_REBOOT else x
            case Timer(h) => RebootHandled(cfg, x, r.armed, h, s.now)
            case Host(h) => if h.HostOff? && NoneFails(h.writes) then NO_REBOOT else x
            case _ => x
  {
    match step
    case Cmd(cmd) => CommandRebootIs(cfg, s, cmd);
    case Timer(t) => TimerRebootIs(cfg, s, t);
    case Host(h) =>
      if h.HostOff? {
        SetAllRebootIs(cfg, s.core, s.now, {}, h.writes);
      }
    case _ =>
  }
}
