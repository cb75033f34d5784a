/**
 * What every interleaving of the firmware's handlers keeps: the facts protected by relay_lock, the fail-safe chain
 * from a stuck lease to a silent watchdog, and the window in which a renewed lease does not stop a reboot.
 */
module FirmwareSafety {
  import opened Common
  import opened RelaySpec
  import opened Firmware
  import opened FirmwareOutcomes
  import H = HealthSpec

  // ----- Health calls, as far as the control plane depends on them -----

  lemma {:induction false} Told(c: Core, e: H.Event)
    ensures var t := Tell(c, e);
            && t.relay == c.relay && t.board == c.board
            && (forall r: H.Reason :: H.Active(t.log, r) <==>
                 match H.Decides(e, r) case Some(b) => b case None => H.Active(c.log, r))
            && Masks(t) == (if e.SetRelayState? then (e.relays, e.pulses) else Masks(c))
  {
    H.OneMore(c.log, e);
  }

  predicate CoreIoFailed(c: Core) {
    H.Active(c.log, H.RelayIoFailed)
  }

  predicate RebootPending(c: Core) {
    H.Active(c.log, H.CommRebootPending)
  }

  /** The relay and pulse masks that the health module holds. */
  function Masks(c: Core): (set<nat>, set<nat>) {
    H.MasksAfter(c.log)
  }

  // ----- Facts protected by relay_lock -----

  predicate LeaseHeld(cfg: Config, c: Core) {
    !CoreIoFailed(c) && cfg.HasTimeout() && c.relay.on != {} ==> c.relay.armed
  }

  predicate LeaseLive(c: Core) {
    !CoreIoFailed(c) && c.relay.armed ==> c.relay.lease.Live()
  }

  /** Every pulsing channel other than the excepted one still has a timer or a handler that will end it. */
  predicate PulsesLive(r: Relay, except: set<nat>)
    requires Shaped(r)
  {
    forall ch :: 0 <= ch < CHANNELS && ch in r.pulsing && ch !in except ==> r.pulseWork[ch].Live()
  }

  predicate PinsMatch(c: Core)
    requires Shaped(c.relay)
  {
    !CoreIoFailed(c) ==> forall ch :: 0 <= ch < CHANNELS ==> c.relay.pins[ch] == (ch in c.relay.on)
  }

  /** The lock's facts, without the two that a handler in flight suspends. */
  predicate Locked(cfg: Config, c: Core) {
    && Shaped(c.relay)
    && c.relay.pulsing <= c.relay.on
    && LeaseHeld(cfg, c) && PinsMatch(c)
  }

  predicate Protected(cfg: Config, c: Core) {
    Locked(cfg, c) && LeaseLive(c) && PulsesLive(c.relay, {})
  }

  /** Nothing is reported, and nothing told to the health module about the masks. */
  predicate Unreported(c: Core, d: Core) {
    d.board == c.board && Masks(d) == Masks(c)
  }

  /** The new relay state is reported, and nothing published yet. */
  predicate Reported(c: Core, d: Core, now: nat) {
    Sized(d.relay) && d.board == Announced(c.board, d.relay, now) && Masks(d) == Masks(c)
  }

  predicate FailedReasons(c: Core, d: Core) {
    CoreIoFailed(d) && (RebootPending(d) <==> RebootPending(c))
  }

  /** The health side of a handler stopped by a failed write. */
  predicate FailedHealth(c: Core, d: Core) {
    FailedReasons(c, d) && Unreported(c, d)
  }

  lemma SetChannelKeeps(c: Core, ch: nat, on: bool, w: Write)
    requires Shaped(c.relay) && ch < CHANNELS && PinsMatch(c)
    ensures var d := SetChannel(c, ch, on, w);
            && Shaped(d.relay) && PinsMatch(d)
            && (w.Written? ==>
                 d == c.(relay := c.relay.(pins := c.relay.pins[ch := on],
                                           on := if on then c.relay.on + {ch} else c.relay.on - {ch})))
            && (w.WriteFailed? ==> FailedHealth(c, d) && d.relay.(pins := c.relay.pins) == c.relay)
  {
    match w
    case Written =>
    case WriteFailed(level) =>
      Told(c.(relay := c.relay.(pins := c.relay.pins[ch := level])), H.RecordRelayIoError);
  }

  lemma ApplyStateKeeps(c: Core, mask: set<nat>, writes: seq<Write>)
    requires Shaped(c.relay) && mask <= ALL && |writes| == CHANNELS
    requires PinsMatch(c)
    ensures var d := ApplyState(c, mask, writes);
            && Shaped(d.relay) && PinsMatch(d)
            && (Succeeding(writes) == CHANNELS ==>
                 d == c.(relay := c.relay.(pins := DrivenPins(c.relay.pins, mask, writes), on := mask)))
            && (Succeeding(writes) < CHANNELS ==> FailedHealth(c, d) && d.relay.(pins := c.relay.pins) == c.relay)
  {
    Told(c.(relay := c.relay.(pins := DrivenPins(c.relay.pins, mask, writes))), H.RecordRelayIoError);
    assert mask * ALL == mask;
  }

  lemma RenewKeeps(cfg: Config, c: Core, now: nat)
    requires Shaped(c.relay) && PinsMatch(c)
    ensures var d := Renew(cfg, c, now);
            && d.relay == ScheduleLease(cfg, CancelReboot(c.relay), now)
            && PinsMatch(d)
            && (CoreIoFailed(d) <==> CoreIoFailed(c))
            && Unreported(c, d)
            && (RebootPending(d) <==>
                 RebootPending(c) && !c.relay.rebootScheduled)
  {
    var canceled := c.(relay := CancelReboot(c.relay));
    Told(canceled, H.SetCommOwnerTimedOut(false));
    Told(Tell(canceled, H.SetCommOwnerTimedOut(false)), H.SetCommRebootPending(false));
  }

  // ----- What each command and handler does, without the health model's detail -----

  predicate RenewedReasons(c: Core, d: Core) {
    && (CoreIoFailed(d) <==> CoreIoFailed(c))
    && (RebootPending(d) <==> RebootPending(c) && !c.relay.rebootScheduled)
  }

  /** The health side of a successful renewal and its report. */
  predicate RenewedHealth(c: Core, d: Core, now: nat) {
    RenewedReasons(c, d) && Reported(c, d, now)
  }

  lemma RenewAndAnnounce(cfg: Config, c: Core, now: nat)
    requires Shaped(c.relay) && PinsMatch(c)
    ensures Sized(Renew(cfg, c, now).relay)
    ensures var d := Announce(Renew(cfg, c, now), now);
            RenewedHealth(c, d, now) && PinsMatch(d) && d.relay == ScheduleLease(cfg, CancelReboot(c.relay), now)
  {
    RenewKeeps(cfg, c, now);
  }

  lemma SetWrittenEffect(cfg: Config, c: Core, now: nat, ch: nat, on: bool, base: Relay)
    requires Shaped(c.relay) && PinsMatch(c) && ch < CHANNELS && base == CancelPulses(c.relay, {ch})
    ensures var (d, ret) := Set(cfg, c, now, ch, on, Written);
            && Shaped(d.relay) && PinsMatch(d) && ret == Success && RenewedHealth(c, d, now)
            && d.relay == ScheduleLease(cfg, CancelReboot(
                 base.(pins := base.pins[ch := on], on := if on then base.on + {ch} else base.on - {ch})), now)
  {
    var canceled := c.(relay := base);
    SetChannelKeeps(canceled, ch, on, Written);
    RenewAndAnnounce(cfg, SetChannel(canceled, ch, on, Written), now);
  }

  lemma SetEffect(cfg: Config, c: Core, now: nat, ch: nat, on: bool, w: Write)
    requires Shaped(c.relay) && PinsMatch(c) && ch < CHANNELS
    ensures var (d, ret) := Set(cfg, c, now, ch, on, w);
            var base := CancelPulses(c.relay, {ch});
            && Shaped(d.relay) && PinsMatch(d)
            && (w.WriteFailed? ==> ret == IoFailure && FailedHealth(c, d) && d.relay.(pins := base.pins) == base)
            && (w.Written? ==>
                 && ret == Success && RenewedHealth(c, d, now)
                 && d.relay == ScheduleLease(cfg, CancelReboot(
                      base.(pins := base.pins[ch := on],
                            on := if on then base.on + {ch} else base.on - {ch})), now))
  {
    var base := CancelPulses(c.relay, {ch});
    match w
    case Written => SetWrittenEffect(cfg, c, now, ch, on, base);
    case WriteFailed(_) => SetChannelKeeps(c.(relay := base), ch, on, w);
  }

  lemma SetAllEffect(cfg: Config, c: Core, now: nat, mask: set<nat>, writes: seq<Write>)
    requires Shaped(c.relay) && PinsMatch(c) && mask <= ALL && |writes| == CHANNELS
    ensures var (d, ret) := SetAll(cfg, c, now, mask, writes);
            var base := CancelPulses(c.relay, ALL);
            && Shaped(d.relay) && PinsMatch(d) && base.pulsing == {}
            && (Succeeding(writes) < CHANNELS ==>
                 ret == IoFailure && FailedHealth(c, d) && d.relay.(pins := base.pins) == base)
            && (Succeeding(writes) == CHANNELS ==>
                 && ret == Success && RenewedHealth(c, d, now)
                 && d.relay == ScheduleLease(cfg, CancelReboot(
                      base.(pins := DrivenPins(base.pins, mask, writes), on := mask)), now))
  {
    var base := c.(relay := CancelPulses(c.relay, ALL));
    ApplyStateKeeps(base, mask, writes);
    var written := ApplyState(base, mask, writes);
    if Succeeding(writes) == CHANNELS {
      RenewAndAnnounce(cfg, written, now);
    }
  }

  /** A pulse whose timer was refused, its channel switched off again, or left on by one more failed write. */
  predicate PulseUndone(c: Core, d: Core, ch: nat, off: Write) {
    && (CoreIoFailed(d) <==> CoreIoFailed(c) || off.WriteFailed?) && Unreported(c, d)
    && (RebootPending(d) <==> RebootPending(c))
    && ch < |c.relay.durations|
    && d.relay.(pins := c.relay.pins, on := c.relay.on) == c.relay.(durations := c.relay.durations[ch := 0])
    && d.relay.on == (if off.WriteFailed? then c.relay.on + {ch} else c.relay.on - {ch})
  }

  predicate PulseStarted(cfg: Config, c: Core, d: Core, now: nat, ch: nat, duration: nat)
    requires Shaped(c.relay) && ch < CHANNELS
  {
    && RenewedHealth(c, d, now)
    && d.relay == ScheduleLease(cfg, CancelReboot(StartPulse(
         c.relay.(pins := c.relay.pins[ch := true], on := c.relay.on + {ch}), ch, duration, now + duration)), now)
  }

  lemma PulseEffect(cfg: Config, c: Core, now: nat, ch: nat, duration: nat, w: Write, scheduled: bool, off: Write)
    requires Shaped(c.relay) && PinsMatch(c) && ch < CHANNELS
    requires ch !in c.relay.pulsing && PULSE_MIN_MS <= duration <= PULSE_MAX_MS
    ensures var (d, ret) := Pulse(cfg, c, now, ch, duration, w, scheduled, off);
            && Shaped(d.relay) && PinsMatch(d)
            && (w.WriteFailed? ==> ret == IoFailure && FailedHealth(c, d) && d.relay.(pins := c.relay.pins) == c.relay)
            && (w.Written? && !scheduled ==> ret == IoFailure && PulseUndone(c, d, ch, off))
            && (w.Written? && scheduled ==> ret == Success && PulseStarted(cfg, c, d, now, ch, duration))
  {
    SetChannelKeeps(c, ch, true, w);
    var written := SetChannel(c, ch, true, w);
    if w.Written? && !scheduled {
      PulseUndoneEffect(c, written, ch, off);
    } else if w.Written? {
      PulseStartedEffect(cfg, c, written, now, ch, duration);
    }
  }

  lemma PulseUndoneEffect(c: Core, written: Core, ch: nat, off: Write)
    requires Shaped(c.relay) && PinsMatch(c) && ch < CHANNELS && Shaped(written.relay) && PinsMatch(written)
    requires written == c.(relay := c.relay.(pins := c.relay.pins[ch := true], on := c.relay.on + {ch}))
    ensures var undone := written.(relay := written.relay.(durations := written.relay.durations[ch := 0]));
            var d := SetChannel(undone, ch, false, off);
            Shaped(d.relay) && PinsMatch(d) && PulseUndone(c, d, ch, off)
  {
    var undone := written.(relay := written.relay.(durations := written.relay.durations[ch := 0]));
    SetChannelKeeps(undone, ch, false, off);
  }

  lemma PulseStartedEffect(cfg: Config, c: Core, written: Core, now: nat, ch: nat, duration: nat)
    requires Shaped(c.relay) && PinsMatch(c) && ch < CHANNELS && Shaped(written.relay) && PinsMatch(written)
    requires written == c.(relay := c.relay.(pins := c.relay.pins[ch := true], on := c.relay.on + {ch}))
    ensures var started := written.(relay := StartPulse(written.relay, ch, duration, now + duration));
            && Sized(Renew(cfg, started, now).relay)
            && var d := Announce(Renew(cfg, started, now), now);
               Shaped(d.relay) && PinsMatch(d) && PulseStarted(cfg, c, d, now, ch, duration)
  {
    RenewAndAnnounce(cfg, written.(relay := StartPulse(written.relay, ch, duration, now + duration)), now);
  }

  lemma PulseExpiredEffect(cfg: Config, c: Core, now: nat, ch: nat, w: Write)
    requires Shaped(c.relay) && PinsMatch(c) && ch in c.relay.pulsing && ch < CHANNELS
    ensures var d := PulseExpired(cfg, c, now, ch, w);
            var base := c.relay.(pulsing := c.relay.pulsing - {ch}, durations := c.relay.durations[ch := 0]);
            && Shaped(d.relay) && PinsMatch(d)
            && (RebootPending(d) <==> RebootPending(c))
            && (w.WriteFailed? ==> FailedHealth(c, d) && d.relay.(pins := base.pins) == base)
            && (w.Written? ==>
                 && (CoreIoFailed(d) <==> CoreIoFailed(c))
                 && Reported(c, d, now)
                 && d.relay == DisarmIfIdle(cfg, base.(pins := base.pins[ch := false], on := base.on - {ch})))
  {
    var base := c.(relay := c.relay.(pulsing := c.relay.pulsing - {ch}, durations := c.relay.durations[ch := 0]));
    SetChannelKeeps(base, ch, false, w);
  }

  lemma LeaseOffAnnounced(cfg: Config, c: Core, now: nat)
    requires Shaped(c.relay) && PinsMatch(c)
    ensures Sized(AfterLease(cfg, c.relay, now))
    ensures var told := Tell(c, H.SetCommOwnerTimedOut(true));
            var d := Announce(told.(relay := AfterLease(cfg, told.relay, now)), now);
            && (CoreIoFailed(d) <==> CoreIoFailed(c)) && PinsMatch(d)
            && (RebootPending(d) <==> RebootPending(c))
            && Reported(c, d, now)
            && d.relay == AfterLease(cfg, c.relay, now)
  {
    Told(c, H.SetCommOwnerTimedOut(true));
  }

  /** The two ways an armed lease handler ends. */
  predicate LeaseStopped(c: Core, d: Core, base: Relay) {
    FailedHealth(c, d) && d.relay.(pins := base.pins) == base
  }

  predicate LeaseDone(cfg: Config, c: Core, d: Core, base: Relay, now: nat) {
    && (CoreIoFailed(d) <==> CoreIoFailed(c))
    && Reported(c, d, now)
    && d.relay == AfterLease(cfg, base, now)
  }

  lemma LeaseExpiredEffect(cfg: Config, c: Core, now: nat, writes: seq<Write>)
    requires Shaped(c.relay) && PinsMatch(c) && c.relay.armed && |writes| == CHANNELS
    ensures var d := LeaseExpired(cfg, c, now, writes);
            var base := CancelPulses(c.relay, ALL);
            && Shaped(d.relay) && PinsMatch(d)
            && (RebootPending(d) <==> RebootPending(c))
            && (Succeeding(writes) < CHANNELS ==> LeaseStopped(c, d, base))
            && (Succeeding(writes) == CHANNELS ==>
                 LeaseDone(cfg, c, d, base.(pins := DrivenPins(base.pins, {}, writes), on := {}), now))
  {
    var base := c.(relay := CancelPulses(c.relay, ALL));
    ApplyStateKeeps(base, {}, writes);
    var written := ApplyState(base, {}, writes);
    if Succeeding(writes) == CHANNELS {
      LeaseOffAnnounced(cfg, written, now);
      LeaseOffDone(cfg, c, written, LeaseExpired(cfg, c, now, writes), now);
    }
  }

  lemma LeaseOffDone(cfg: Config, c: Core, written: Core, d: Core, now: nat)
    requires written.board == c.board && written.log == c.log && Shaped(written.relay) && PinsMatch(written)
    requires (CoreIoFailed(d) <==> CoreIoFailed(written)) && (RebootPending(d) <==> RebootPending(written))
    requires Reported(written, d, now) && d.relay == AfterLease(cfg, written.relay, now)
    ensures LeaseDone(cfg, c, d, written.relay, now) && (RebootPending(d) <==> RebootPending(c)) && Shaped(d.relay)
  {
  }

  lemma LeaseSubmitEffect(cfg: Config, c: Core, now: nat, scheduled: bool)
    ensures var d := LeaseSubmit(cfg, c, now, scheduled);
            && (CoreIoFailed(d) <==> CoreIoFailed(c))
            && Unreported(c, d)
            && d.relay.(rebootScheduled := c.relay.rebootScheduled, warningScheduled := c.relay.warningScheduled,
                        warning := c.relay.warning, reboot := c.relay.reboot) == c.relay
            && (!scheduled ==>
                 && !RebootPending(d) && !d.relay.rebootScheduled && !d.relay.warningScheduled
                 && d.relay.reboot == c.relay.reboot && d.relay.warning == c.relay.warning.Cancel())
            && (scheduled ==>
                 && (RebootPending(d) <==> RebootPending(c))
                 && d.relay == c.relay.(reboot := c.relay.reboot.Schedule(now + cfg.rebootDelayMs)))
  {
    if !scheduled {
      Told(c.(relay := c.relay.(rebootScheduled := false, warningScheduled := false,
                                warning := c.relay.warning.Cancel())), H.RecordRebootFailed);
    }
  }

  lemma LeaseWarnEffect(cfg: Config, c: Core, now: nat, warned: bool)
    ensures var d := LeaseWarn(cfg, c, now, warned);
            && (CoreIoFailed(d) <==> CoreIoFailed(c))
            && Unreported(c, d)
            && (RebootPending(d) <==> RebootPending(c) || cfg.RebootDelay() <= WARNING_MS)
            && d.relay.(warning := c.relay.warning) == c.relay
            && (d.relay.warning == c.relay.warning
                || (cfg.RebootDelay() > WARNING_MS && d.relay.warning ==
                    c.relay.warning.Schedule(now + cfg.RebootDelay() - WARNING_MS)))
  {
    Told(c, H.SetCommRebootPending(true));
  }

  /** A job of a publication changes the masks that the health module holds, or what the indicator shows. */
  lemma JobEffect(c: Core, i: nat, at: int)
    requires i < |c.board.pending| && c.board.pending[i] != []
    ensures var d, job := RunJob(c, i, at), c.board.pending[i][0];
            && d.relay == c.relay && d.board.newest == c.board.newest
            && (forall r: H.Reason :: H.Active(d.log, r) <==> H.Active(c.log, r))
            && Masks(d) == (if job.TellHealth? then (job.on, job.pulsing) else Masks(c))
  {
    var job, rest := c.board.pending[i][0], c.board.pending[i][1..];
    if job.TellHealth? {
      Told(c.(board := Left(c.board, i, rest)), H.SetRelayState(job.on, job.pulsing));
    }
  }

  // ----- Every step keeps the lock's facts -----

  lemma SetKeeps(cfg: Config, c: Core, now: nat, ch: nat, on: bool, w: Write)
    requires Protected(cfg, c)
    ensures Protected(cfg, Set(cfg, c, now, ch, on, w).0)
    ensures CoreIoFailed(c) ==> CoreIoFailed(Set(cfg, c, now, ch, on, w).0)
  {
    if ch < CHANNELS {
      SetEffect(cfg, c, now, ch, on, w);
    }
  }

  lemma SetAllKeeps(cfg: Config, c: Core, now: nat, mask: set<nat>, writes: seq<Write>)
    requires Protected(cfg, c) && |writes| == CHANNELS
    ensures Protected(cfg, SetAll(cfg, c, now, mask, writes).0)
    ensures CoreIoFailed(c) ==> CoreIoFailed(SetAll(cfg, c, now, mask, writes).0)
  {
    if mask <= ALL {
      SetAllEffect(cfg, c, now, mask, writes);
    }
  }

  lemma PulseStartedKeeps(cfg: Config, c: Core, d: Core, now: nat, ch: nat, duration: nat)
    requires Protected(cfg, c) && Shaped(d.relay) && PinsMatch(d) && RenewedHealth(c, d, now) && ch < CHANNELS
    requires d.relay == ScheduleLease(cfg, CancelReboot(StartPulse(
               c.relay.(pins := c.relay.pins[ch := true], on := c.relay.on + {ch}),
               ch, duration, now + duration)), now)
    ensures Protected(cfg, d)
  {
  }

  lemma PulseUndoneKeeps(cfg: Config, c: Core, d: Core, ch: nat)
    requires Protected(cfg, c) && Shaped(d.relay) && PinsMatch(d)
    requires ch < CHANNELS && ch !in c.relay.pulsing && (CoreIoFailed(c) ==> CoreIoFailed(d))
    requires d.relay.(pins := c.relay.pins, on := c.relay.on) == c.relay.(durations := c.relay.durations[ch := 0])
    requires d.relay.on == c.relay.on - {ch} || (d.relay.on == c.relay.on + {ch} && CoreIoFailed(d))
    ensures Protected(cfg, d)
  {
    assert d.relay.pulseWork == c.relay.pulseWork && d.relay.pulsing == c.relay.pulsing;
    assert d.relay.armed == c.relay.armed && d.relay.lease == c.relay.lease;
  }

  lemma PulseKeeps(cfg: Config, c: Core, now: nat, ch: nat, duration: nat, w: Write, scheduled: bool, off: Write)
    requires Protected(cfg, c)
    ensures Protected(cfg, Pulse(cfg, c, now, ch, duration, w, scheduled, off).0)
    ensures CoreIoFailed(c) ==> CoreIoFailed(Pulse(cfg, c, now, ch, duration, w, scheduled, off).0)
  {
    if ch < CHANNELS && PULSE_MIN_MS <= duration <= PULSE_MAX_MS && ch !in c.relay.pulsing {
      PulseEffect(cfg, c, now, ch, duration, w, scheduled, off);
      var d := Pulse(cfg, c, now, ch, duration, w, scheduled, off).0;
      if w.Written? && scheduled {
        PulseStartedKeeps(cfg, c, d, now, ch, duration);
      } else if w.Written? {
        PulseUndoneKeeps(cfg, c, d, ch);
      }
    }
  }

  lemma HeartbeatKeeps(cfg: Config, c: Core, now: nat)
    requires Protected(cfg, c)
    ensures Protected(cfg, Heartbeat(cfg, c, now))
    ensures CoreIoFailed(c) ==> CoreIoFailed(Heartbeat(cfg, c, now))
  {
    RenewKeeps(cfg, c, now);
  }

  /** The handler of channel ch may be the only thing that keeps its pulse alive. */
  lemma PulseExpiredKeeps(cfg: Config, c: Core, now: nat, ch: nat, w: Write)
    requires Locked(cfg, c) && LeaseLive(c) && PulsesLive(c.relay, {ch}) && ch < CHANNELS
    ensures Protected(cfg, PulseExpired(cfg, c, now, ch, w))
    ensures CoreIoFailed(c) ==> CoreIoFailed(PulseExpired(cfg, c, now, ch, w))
  {
    if ch in c.relay.pulsing {
      PulseExpiredEffect(cfg, c, now, ch, w);
    }
  }

  /** The lease handler may be the only thing that keeps an armed lease alive. */
  lemma LeaseExpiredKeeps(cfg: Config, c: Core, now: nat, writes: seq<Write>)
    requires Locked(cfg, c) && PulsesLive(c.relay, {}) && |writes| == CHANNELS
    ensures Protected(cfg, LeaseExpired(cfg, c, now, writes))
    ensures CoreIoFailed(c) ==> CoreIoFailed(LeaseExpired(cfg, c, now, writes))
  {
    if c.relay.armed {
      LeaseExpiredEffect(cfg, c, now, writes);
    }
  }

  predicate Safe(cfg: Config, s: Sys) {
    WellFormed(s) && Protected(cfg, s.core)
  }

  lemma CommandKeeps(cfg: Config, s: Sys, cmd: Command)
    requires Enabled(s, Cmd(cmd)) && Safe(cfg, s)
    ensures var t := NextCommand(cfg, s, cmd); Safe(cfg, t) && (IoFailed(s) ==> IoFailed(t))
  {
    match cmd
    case SetStep(ch, on, w) => SetKeeps(cfg, s.core, s.now, ch, on, w);
    case SetAllStep(mask, writes) => SetAllKeeps(cfg, s.core, s.now, mask, writes);
    case PulseStep(ch, duration, w, scheduled, off) =>
      PulseKeeps(cfg, s.core, s.now, ch, duration, w, scheduled, off);
    case HeartbeatStep => HeartbeatKeeps(cfg, s.core, s.now);
  }

  lemma PulseBodyKeeps(cfg: Config, s: Sys, ch: nat, w: Write)
    requires Enabled(s, Timer(PulseBody(ch, w))) && Safe(cfg, s)
    ensures var u := NextTimer(cfg, s, PulseBody(ch, w)); Safe(cfg, u) && (IoFailed(s) ==> IoFailed(u))
  {
    var r := s.core.relay;
    var c := s.core.(relay := r.(pulseWork := r.pulseWork[ch := r.pulseWork[ch].Finish()]));
    assert PulsesLive(c.relay, {ch});
    PulseExpiredKeeps(cfg, c, s.now, ch, w);
  }

  lemma LeaseBodyKeeps(cfg: Config, s: Sys, writes: seq<Write>)
    requires Enabled(s, Timer(LeaseBody(writes))) && Safe(cfg, s)
    ensures var u := NextTimer(cfg, s, LeaseBody(writes)); Safe(cfg, u) && (IoFailed(s) ==> IoFailed(u))
  {
    var r := s.core.relay;
    LeaseExpiredKeeps(cfg, s.core.(relay := r.(lease := r.lease.Finish())), s.now, writes);
  }

  lemma FireKeeps(cfg: Config, s: Sys, t: Handler)
    requires Enabled(s, Timer(t)) && Safe(cfg, s)
    requires t.PulseFire? || t.LeaseFire? || t.WarningFire? || t.RebootFire?
    ensures var u := NextTimer(cfg, s, t); Safe(cfg, u) && (IoFailed(s) ==> IoFailed(u))
  {
  }

  lemma LeaseTailsKeep(cfg: Config, s: Sys, t: Handler)
    requires Enabled(s, Timer(t)) && Safe(cfg, s)
    requires t.LeaseSubmission? || t.LeaseWarning?
    ensures var u := NextTimer(cfg, s, t); Safe(cfg, u) && (IoFailed(s) ==> IoFailed(u))
  {
    match t
    case LeaseSubmission(scheduled) => LeaseSubmitEffect(cfg, s.core, s.now, scheduled);
    case LeaseWarning(warned) => LeaseWarnEffect(cfg, s.core, s.now, warned);
  }

  lemma RebootHandlersKeep(cfg: Config, s: Sys, t: Handler)
    requires Enabled(s, Timer(t)) && Safe(cfg, s)
    requires t.WarningBody? || t.RebootBody?
    ensures var u := NextTimer(cfg, s, t); Safe(cfg, u) && (IoFailed(s) ==> IoFailed(u))
  {
    var r := s.core.relay;
    match t
    case WarningBody =>
      var c := s.core.(relay := r.(warning := r.warning.Finish()));
      Told(c.(relay := c.relay.(warningScheduled := false)), H.SetCommRebootPending(true));
    case RebootBody(_) => Told(s.core.(relay := r.(reboot := r.reboot.Finish())), H.RecordRebootFailed);
  }

  lemma TimerKeeps(cfg: Config, s: Sys, t: Handler)
    requires Enabled(s, Timer(t)) && Safe(cfg, s)
    ensures var u := NextTimer(cfg, s, t); Safe(cfg, u) && (IoFailed(s) ==> IoFailed(u))
  {
    match t
    case PulseBody(ch, w) => PulseBodyKeeps(cfg, s, ch, w);
    case LeaseBody(writes) => LeaseBodyKeeps(cfg, s, writes);
    case LeaseSubmission(_) => LeaseTailsKeep(cfg, s, t);
    case LeaseWarning(_) => LeaseTailsKeep(cfg, s, t);
    case WarningBody => RebootHandlersKeep(cfg, s, t);
    case RebootBody(_) => RebootHandlersKeep(cfg, s, t);
    case _ => FireKeeps(cfg, s, t);
  }

  lemma DogKeeps(cfg: Config, s: Sys, d: DogAction)
    requires Enabled(s, Dog(d)) && Safe(cfg, s)
    ensures var t := NextDog(cfg, s, d);
            && Safe(cfg, t) && (IoFailed(s) ==> IoFailed(t))
            && t.core.relay == s.core.relay && Unreported(s.core, t.core)
            && (RebootPending(t.core) <==> RebootPending(s.core))
            && t == s.(dog := t.dog, core := t.core)
  {
    DogTells(cfg, s, d, NextDog(cfg, s, d).core);
    TellKeeps(cfg, s.core, H.RecordWatchdogSupervisorFailed);
    Told(s.core, H.RecordWatchdogSupervisorFailed);
  }

  lemma DogTells(cfg: Config, s: Sys, d: DogAction, c: Core)
    requires Enabled(s, Dog(d)) && c == NextDog(cfg, s, d).core
    ensures c == s.core || c == Tell(s.core, H.RecordWatchdogSupervisorFailed)
  {
  }

  lemma TellKeeps(cfg: Config, c: Core, e: H.Event)
    requires Protected(cfg, c)
    ensures Protected(cfg, Tell(c, e)) && (CoreIoFailed(c) ==> CoreIoFailed(Tell(c, e)))
  {
    Told(c, e);
  }

  lemma HostOffKeeps(cfg: Config, s: Sys, kind: ResetKind, writes: seq<Write>)
    requires Enabled(s, Host(HostOff(kind, writes))) && Safe(cfg, s)
    ensures var t := NextHost(cfg, s, HostOff(kind, writes)); Safe(cfg, t) && (IoFailed(s) ==> IoFailed(t))
  {
    SetAllKeeps(cfg, s.core, s.now, {}, writes);
    TellKeeps(cfg, SetAll(cfg, s.core, s.now, {}, writes).0, H.RecordRebootFailed);
  }

  lemma HostKeeps(cfg: Config, s: Sys, h: HostAction)
    requires Enabled(s, Host(h)) && Safe(cfg, s)
    ensures var t := NextHost(cfg, s, h); Safe(cfg, t) && (IoFailed(s) ==> IoFailed(t))
  {
    match h
    case HostRequest(_, _) =>
      Told(s.core, H.RecordRebootFailed);
      Told(s.core, H.SetHostRebootPending(true));
    case HostFire(_) =>
    case HostOff(kind, writes) => HostOffKeeps(cfg, s, kind, writes);
    case HostReset(_, _) => TellKeeps(cfg, s.core, H.RecordRebootFailed);
  }

  lemma StepKeeps(cfg: Config, s: Sys, step: Step)
    requires Enabled(s, step) && Safe(cfg, s)
    ensures Safe(cfg, Next(cfg, s, step)) && (IoFailed(s) ==> IoFailed(Next(cfg, s, step)))
  {
    match step
    case Cmd(cmd) => CommandKeeps(cfg, s, cmd);
    case Timer(t) => TimerKeeps(cfg, s, t);
    case Dog(d) => DogKeeps(cfg, s, d);
    case Host(h) => HostKeeps(cfg, s, h);
    case Publish(i) => JobEffect(s.core, i, s.now);
    case Refreshing =>
    case Note(e) => Told(s.core, e);
    case Tick(_) =>
  }

  lemma BootIsSafe(cfg: Config, now: nat)
    ensures Safe(cfg, Boot(cfg, now)) && !IoFailed(Boot(cfg, now))
  {
    var c := Start(now);
    Told(c, H.SetCommOwnerTimedOut(false));
    var c1 := Tell(c, H.SetCommOwnerTimedOut(false));
    Told(c1, H.SetCommRebootPending(false));
    var c2 := Tell(c1, H.SetCommRebootPending(false));
    var d := c2.(relay := if cfg.policy.AlwaysOnOwner? then ScheduleLease(cfg, c2.relay, now) else c2.relay);
    Told(d, H.SetRelayState(d.relay.on, d.relay.pulsing));
  }

  lemma {:induction false} RunKeeps(cfg: Config, s: Sys, steps: seq<Step>, t: Sys)
    requires Run(cfg, s, steps, t) && Safe(cfg, s)
    ensures Safe(cfg, t) && (IoFailed(s) ==> IoFailed(t))
    decreases |steps|
  {
    if steps != [] {
      StepKeeps(cfg, s, steps[0]);
      RunKeeps(cfg, Next(cfg, s, steps[0]), steps[1..], t);
    }
  }

  // ----- Main results for every interleaving -----

  /**
   * Whatever the interleaving: a relay left on under a timeout policy still has a lease timer or lease handler that
   * will switch it off, a running pulse still has one that will end it, and the pins show the state mask, unless a
   * write failure is latched.
   */
  lemma InterleavedLease(cfg: Config, now: nat, steps: seq<Step>, s: Sys)
    requires Run(cfg, Boot(cfg, now), steps, s)
    ensures (cfg.policy.EnergizedOnly? || cfg.policy.AlwaysOnOwner?) && s.core.relay.on != {} && !IoFailed(s) ==>
              s.core.relay.armed && (s.core.relay.lease.due.Some? || s.core.relay.lease.running > 0)
    ensures WellFormed(s) && s.core.relay.pulsing <= s.core.relay.on
    ensures forall ch :: ch in s.core.relay.pulsing ==>
                           s.core.relay.pulseWork[ch].due.Some? || s.core.relay.pulseWork[ch].running > 0
    ensures !IoFailed(s) ==> forall ch :: 0 <= ch < CHANNELS ==> s.core.relay.pins[ch] == (ch in s.core.relay.on)
  {
    BootIsSafe(cfg, now);
    RunKeeps(cfg, Boot(cfg, now), steps, s);
  }

  /**
   * After a heartbeat or a successful command, the lease is armed exactly under the owner policy, or under the other
   * timeout policy with a relay on; its timer is then due one timeout later.
   */
  lemma ArmedIff(cfg: Config, now: nat, steps: seq<Step>, s: Sys, cmd: Command)
    requires Run(cfg, Boot(cfg, now), steps, s) && Enabled(s, Cmd(cmd)) && Succeeds(s.core.relay, cmd)
    ensures var r := NextCommand(cfg, s, cmd).core.relay;
            && (r.armed <==> cfg.policy.AlwaysOnOwner? || (cfg.policy.EnergizedOnly? && r.on != {}))
            && r.lease.due == if r.armed then Some(s.now + cfg.timeoutMs) else None
  {
    BootIsSafe(cfg, now);
    RunKeeps(cfg, Boot(cfg, now), steps, s);
    CommandKeeps(cfg, s, cmd);
    CommandLeaseIs(cfg, s, cmd);
    ArmedFrom(cfg, NextCommand(cfg, s, cmd).core.relay, s.now);
  }

  lemma ArmedFrom(cfg: Config, r: Relay, now: nat)
    requires LeaseOf(r) == Restarted(cfg, r, now) && r.pulsing <= r.on
    ensures r.armed <==> cfg.policy.AlwaysOnOwner? || (cfg.policy.EnergizedOnly? && r.on != {})
    ensures r.lease.due == if r.armed then Some(now + cfg.timeoutMs) else None
  {
  }
}
