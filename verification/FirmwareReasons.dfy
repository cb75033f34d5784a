/** What every step does to each reason of the health module, written out from the step alone. */
module FirmwareReasons {
  import opened RelaySpec
  import opened Firmware
  import opened FirmwareOutcomes
  import H = HealthSpec
  import Watchdog

  /** Some write that the command makes fails. */
  predicate WriteFails(r: Relay, cmd: Command) {
    match cmd
    case SetStep(ch, _, w) => ch < 6 && w.WriteFailed?
    case SetAllStep(mask, writes) => mask <= {0, 1, 2, 3, 4, 5} && !NoneFails(writes)
    case PulseStep(ch, duration, w, scheduled, off) =>
      && ch < 6 && 10 <= duration <= 60000 && ch !in r.pulsing
      && (w.WriteFailed? || (!scheduled && off.WriteFailed?))
    case HeartbeatStep => false
  }

  /** A reason after a command, with what it was before. */
  predicate ReasonCommanded(s: Sys, cmd: Command, reason: H.Reason, was: bool) {
    var succeeds := Succeeds(s.core.relay, cmd);
    match reason
    case RelayIoFailed => was || WriteFails(s.core.relay, cmd)
    case CommOwnerTimeout => was && !succeeds
    case CommRebootPending => was && !(succeeds && s.core.relay.rebootScheduled)
    case _ => was
  }

  /** A failed reboot is recorded, and no reboot is pending. */
  predicate ReasonRebootFailed(reason: H.Reason, was: bool) {
    (was || reason == H.RebootFailed) && reason != H.CommRebootPending && reason != H.HostRebootPending
  }

  predicate ReasonHandled(cfg: Config, s: Sys, t: Handler, reason: H.Reason, was: bool) {
    var r := s.core.relay;
    match t
    case PulseBody(ch, w) => was || (reason == H.RelayIoFailed && ch in r.pulsing && w.WriteFailed?)
    case LeaseBody(writes) =>
      was || (r.armed && reason == if NoneFails(writes) then H.CommOwnerTimeout else H.RelayIoFailed)
    case LeaseSubmission(scheduled) => if scheduled then was else ReasonRebootFailed(reason, was)
    case LeaseWarning(_) => was || (reason == H.CommRebootPending && Delay(cfg) <= 10000)
    case WarningBody => was || (reason == H.CommRebootPending && r.rebootScheduled && r.warningScheduled)
    case RebootBody(back) => if back then ReasonRebootFailed(reason, was) else was
    case _ => was
  }

  /** The supervisor's handler finds itself in operation, and none of the fatal reasons in its sample. */
  predicate WouldFeed(dog: Watchdog.State) {
    && dog.sample.Some? && dog.started && dog.enabled && dog.healthy
    && H.RelayGpioInitFailed !in dog.sample.value && H.RelayIoFailed !in dog.sample.value
    && H.WatchdogSupervisorFailed !in dog.sample.value
  }

  /** The supervisor starts only out of booting, with RPC ready. */
  predicate MayStart(s: Sys, ready: bool) {
    !s.dog.started && ready && H.Run(s.core.log).state != H.Booting && !H.Active(s.core.log, H.RpcNotReady)
  }

  predicate ReasonWatched(s: Sys, d: DogAction, reason: H.Reason, was: bool) {
    match d
    case DogStart(ready, setUp, _) => was || (reason == H.WatchdogSupervisorFailed && MayStart(s, ready) && !setUp)
    case DogSample => was
    case DogBody(fed, _) => was || (reason == H.WatchdogSupervisorFailed && WouldFeed(s.dog) && !fed)
  }

  predicate ReasonHosted(s: Sys, h: HostAction, reason: H.Reason, was: bool) {
    match h
    case HostRequest(_, scheduled) =>
      if scheduled then was || reason == H.HostRebootPending else ReasonRebootFailed(reason, was)
    case HostFire(_) => was
    case HostOff(_, writes) =>
      if NoneFails(writes) then ReasonCommanded(s, SetAllStep({}, writes), reason, was)
      else ReasonRebootFailed(reason, was || reason == H.RelayIoFailed)
    case HostReset(_, back) => if back then ReasonRebootFailed(reason, was) else was
  }

  /** A reason after a step, with what it was before. */
  predicate ReasonAfter(cfg: Config, s: Sys, step: Step, reason: H.Reason, was: bool) {
    match step
    case Cmd(cmd) => ReasonCommanded(s, cmd, reason, was)
    case Timer(t) => ReasonHandled(cfg, s, t, reason, was)
    case Dog(d) => ReasonWatched(s, d, reason, was)
    case Host(h) => ReasonHosted(s, h, reason, was)
    case Note(e) =>
      if e.SetRpcReady? && reason == H.RpcNotReady then !e.ready
      else if e.SetIndicatorDegraded? && reason == H.IndicatorDegraded then e.on
      else was
    case _ => was
  }

  // ----- That is what they do -----

  predicate Active(c: Core, reason: H.Reason) {
    H.Active(c.log, reason)
  }

  lemma Heard(c: Core, e: H.Event, reason: H.Reason)
    ensures Active(Tell(c, e), reason) <==> match H.Decides(e, reason) case Some(b) => b case None => Active(c, reason)
  {
    H.OneMore(c.log, e);
  }

  lemma FailureHeard(c: Core, reason: H.Reason)
    ensures Active(Tell(c, H.RecordRelayIoError), reason) <==> Active(c, reason) || reason == H.RelayIoFailed
    ensures Active(Tell(c, H.RecordRebootFailed), reason) <==> ReasonRebootFailed(reason, Active(c, reason))
  {
    Heard(c, H.RecordRelayIoError, reason);
    Heard(c, H.RecordRebootFailed, reason);
  }

  lemma SetChannelReason(c: Core, n: nat, on: bool, w: Write, reason: H.Reason)
    requires Shaped(c.relay) && n < 6
    ensures Active(SetChannel(c, n, on, w), reason) <==>
            Active(c, reason) || (reason == H.RelayIoFailed && w.WriteFailed?)
  {
    if w.WriteFailed? {
      FailureHeard(c.(relay := c.relay.(pins := c.relay.pins[n := w.level])), reason);
    }
  }

  lemma ApplyStateReason(c: Core, mask: set<nat>, writes: seq<Write>, reason: H.Reason)
    requires Shaped(c.relay) && |writes| == 6
    ensures Active(ApplyState(c, mask, writes), reason) <==>
            Active(c, reason) || (reason == H.RelayIoFailed && !NoneFails(writes))
  {
    NoneFailsIff(writes);
    FailureHeard(c.(relay := c.relay.(pins := DrivenPins(c.relay.pins, mask, writes))), reason);
  }

  lemma RenewReason(cfg: Config, c: Core, now: nat, reason: H.Reason)
    ensures Active(Renew(cfg, c, now), reason) <==>
            && Active(c, reason) && reason != H.CommOwnerTimeout
            && !(reason == H.CommRebootPending && c.relay.rebootScheduled)
  {
    var canceled := c.(relay := CancelReboot(c.relay));
    Heard(canceled, H.SetCommOwnerTimedOut(false), reason);
    Heard(Tell(canceled, H.SetCommOwnerTimedOut(false)), H.SetCommRebootPending(false), reason);
  }

  lemma SetReason(cfg: Config, s: Sys, n: nat, on: bool, w: Write, reason: H.Reason)
    requires Shaped(s.core.relay)
    ensures Active(Set(cfg, s.core, s.now, n, on, w).0, reason) <==>
            ReasonCommanded(s, SetStep(n, on, w), reason, Active(s.core, reason))
  {
    if n < 6 {
      var c := s.core.(relay := CancelPulses(s.core.relay, {n}));
      SetChannelReason(c, n, on, w, reason);
      RenewReason(cfg, SetChannel(c, n, on, w), s.now, reason);
    }
  }

  lemma SetAllReason(cfg: Config, s: Sys, mask: set<nat>, writes: seq<Write>, reason: H.Reason)
    requires Shaped(s.core.relay) && |writes| == 6
    ensures var (d, ret) := SetAll(cfg, s.core, s.now, mask, writes);
            && (ret == Success <==> mask <= {0, 1, 2, 3, 4, 5} && NoneFails(writes))
            && (Active(d, reason) <==> ReasonCommanded(s, SetAllStep(mask, writes), reason, Active(s.core, reason)))
  {
    NoneFailsIff(writes);
    if mask <= ALL {
      var c := s.core.(relay := CancelPulses(s.core.relay, ALL));
      ApplyStateReason(c, mask, writes, reason);
      RenewReason(cfg, ApplyState(c, mask, writes), s.now, reason);
    }
  }

  /** A pulse that passes its checks is the write that starts it, and what the kernel makes of its timer. */
  lemma PulseReason(cfg: Config, s: Sys, n: nat, duration: nat, w: Write, scheduled: bool, off: Write,
                    reason: H.Reason)
    requires Shaped(s.core.relay)
    ensures Active(Pulse(cfg, s.core, s.now, n, duration, w, scheduled, off).0, reason) <==>
            ReasonCommanded(s, PulseStep(n, duration, w, scheduled, off), reason, Active(s.core, reason))
  {
    if n < 6 && 10 <= duration <= 60000 && n !in s.core.relay.pulsing {
      SetChannelReason(s.core, n, true, w, reason);
      if w.Written? && scheduled {
        StartedReason(cfg, s, n, duration, off, reason);
      } else if w.Written? {
        RefusedReason(cfg, s, n, duration, off, reason);
      }
    }
  }

  lemma StartedReason(cfg: Config, s: Sys, n: nat, duration: nat, off: Write, reason: H.Reason)
    requires Shaped(s.core.relay) && n < 6 && 10 <= duration <= 60000 && n !in s.core.relay.pulsing
    ensures Active(Pulse(cfg, s.core, s.now, n, duration, Written, true, off).0, reason) <==>
            ReasonCommanded(s, PulseStep(n, duration, Written, true, off), reason, Active(s.core, reason))
  {
    var written := SetChannel(s.core, n, true, Written);
    SetChannelReason(s.core, n, true, Written, reason);
    RenewReason(cfg, written.(relay := StartPulse(written.relay, n, duration, s.now + duration)), s.now, reason);
  }

  lemma RefusedReason(cfg: Config, s: Sys, n: nat, duration: nat, off: Write, reason: H.Reason)
    requires Shaped(s.core.relay) && n < 6 && 10 <= duration <= 60000 && n !in s.core.relay.pulsing
    ensures Active(Pulse(cfg, s.core, s.now, n, duration, Written, false, off).0, reason) <==>
            ReasonCommanded(s, PulseStep(n, duration, Written, false, off), reason, Active(s.core, reason))
  {
    var written := SetChannel(s.core, n, true, Written);
    SetChannelReason(s.core, n, true, Written, reason);
    SetChannelReason(written.(relay := written.relay.(durations := written.relay.durations[n := 0])), n, false,
                     off, reason);
  }

  lemma CommandReason(cfg: Config, s: Sys, cmd: Command, reason: H.Reason)
    requires Enabled(s, Cmd(cmd))
    ensures Active(NextCommand(cfg, s, cmd).core, reason) <==>
            ReasonCommanded(s, cmd, reason, Active(s.core, reason))
  {
    match cmd
    case SetStep(n, on, w) => SetReason(cfg, s, n, on, w, reason);
    case SetAllStep(mask, writes) => SetAllReason(cfg, s, mask, writes, reason);
    case PulseStep(n, duration, w, scheduled, off) =>
      PulseReason(cfg, s, n, duration, w, scheduled, off, reason);
    case HeartbeatStep => RenewReason(cfg, s.core, s.now, reason);
  }

  lemma PulseExpiredReason(cfg: Config, c: Core, now: nat, n: nat, w: Write, reason: H.Reason)
    requires Shaped(c.relay) && n < 6
    ensures Active(PulseExpired(cfg, c, now, n, w), reason) <==>
            Active(c, reason) || (reason == H.RelayIoFailed && n in c.relay.pulsing && w.WriteFailed?)
  {
    if n in c.relay.pulsing {
      var ended := c.(relay := c.relay.(pulsing := c.relay.pulsing - {n}, durations := c.relay.durations[n := 0]));
      SetChannelReason(ended, n, false, w, reason);
    }
  }

  lemma LeaseExpiredReason(cfg: Config, c: Core, now: nat, writes: seq<Write>, reason: H.Reason)
    requires Shaped(c.relay) && |writes| == 6
    ensures Active(LeaseExpired(cfg, c, now, writes), reason) <==>
            || Active(c, reason)
            || (c.relay.armed && reason == if NoneFails(writes) then H.CommOwnerTimeout else H.RelayIoFailed)
  {
    NoneFailsIff(writes);
    if c.relay.armed {
      var off := c.(relay := CancelPulses(c.relay, ALL));
      ApplyStateReason(off, {}, writes, reason);
      Heard(ApplyState(off, {}, writes), H.SetCommOwnerTimedOut(true), reason);
    }
  }

  lemma TimerReason(cfg: Config, s: Sys, t: Handler, reason: H.Reason)
    requires Enabled(s, Timer(t))
    ensures Active(NextTimer(cfg, s, t).core, reason) <==> ReasonHandled(cfg, s, t, reason, Active(s.core, reason))
  {
    var r := s.core.relay;
    match t
    case PulseBody(n, w) =>
      var finished := r.(pulseWork := r.pulseWork[n := r.pulseWork[n].Finish()]);
      PulseExpiredReason(cfg, s.core.(relay := finished), s.now, n, w, reason);
    case LeaseBody(writes) =>
      LeaseExpiredReason(cfg, s.core.(relay := r.(lease := r.lease.Finish())), s.now, writes, reason);
    case _ => TailReason(cfg, s, t, reason);
  }

  lemma TailReason(cfg: Config, s: Sys, t: Handler, reason: H.Reason)
    requires Enabled(s, Timer(t)) && !t.PulseBody? && !t.LeaseBody?
    ensures Active(NextTimer(cfg, s, t).core, reason) <==> ReasonHandled(cfg, s, t, reason, Active(s.core, reason))
  {
    var r := s.core.relay;
    match t
    case LeaseSubmission(_) =>
      FailureHeard(s.core.(relay := r.(rebootScheduled := false, warningScheduled := false,
                                       warning := r.warning.Cancel())), reason);
    case LeaseWarning(_) => Heard(s.core, H.SetCommRebootPending(true), reason);
    case WarningBody =>
      Heard(s.core.(relay := r.(warning := r.warning.Finish(), warningScheduled := false)),
            H.SetCommRebootPending(true), reason);
    case RebootBody(_) => FailureHeard(s.core.(relay := r.(reboot := r.reboot.Finish())), reason);
    case _ =>
  }

  lemma DogReason(cfg: Config, s: Sys, d: DogAction, reason: H.Reason)
    requires Enabled(s, Dog(d))
    ensures Active(NextDog(cfg, s, d).core, reason) <==> ReasonWatched(s, d, reason, Active(s.core, reason))
  {
    Heard(s.core, H.RecordWatchdogSupervisorFailed, reason);
  }

  lemma HostReason(cfg: Config, s: Sys, h: HostAction, reason: H.Reason)
    requires Enabled(s, Host(h))
    ensures Active(NextHost(cfg, s, h).core, reason) <==> ReasonHosted(s, h, reason, Active(s.core, reason))
  {
    match h
    case HostOff(_, writes) =>
      SetAllReason(cfg, s, {}, writes, reason);
      FailureHeard(SetAll(cfg, s.core, s.now, {}, writes).0, reason);
    case _ =>
      FailureHeard(s.core, reason);
      Heard(s.core, H.SetHostRebootPending(true), reason);
  }

  /** Every reason is set and cleared by exactly these steps. */
  lemma ReasonStep(cfg: Config, s: Sys, step: Step, reason: H.Reason)
    requires Enabled(s, step)
    ensures Active(Next(cfg, s, step).core, reason) <==>
            ReasonAfter(cfg, s, step, reason, Active(s.core, reason))
  {
    match step
    case Cmd(cmd) => CommandReason(cfg, s, cmd, reason);
    case Timer(t) => TimerReason(cfg, s, t, reason);
    case Dog(d) => DogReason(cfg, s, d, reason);
    case Host(h) => HostReason(cfg, s, h, reason);
    case Note(e) => Heard(s.core, e, reason);
    case Publish(i) =>
      var job, rest := s.core.board.pending[i][0], s.core.board.pending[i][1..];
      if job.TellHealth? {
        Heard(s.core.(board := Left(s.core.board, i, rest)), H.SetRelayState(job.on, job.pulsing), reason);
      }
    case _ =>
  }
}
