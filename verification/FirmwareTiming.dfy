/**
 * The firmware with each handler running to its end when its timer expires, and time never passing a deadline:
 * exact lease and pulse deadlines, reboot safety, and the agreement of the three views of the relays.
 */
module FirmwareTiming {
  import opened Common
  import opened RelaySpec
  import opened Firmware
  import opened FirmwareSafety
  import opened FirmwareBoard
  import H = HealthSpec

  /** A step that starts no handler, or a handler from the expiry of its timer to its end; with its publication. */
  datatype Move =
    | Do(step: Step)
    | PulseExpiry(ch: nat, w: Write)
    | LeaseExpiry(writes: seq<Write>, scheduled: bool, warned: bool)
    | WarningExpiry
    | RebootExpiry(back: bool)
    | DogExpiry(fed: bool, accepted: bool)
    | HostExpiry(kind: ResetKind, writes: seq<Write>, back: bool)

  predicate Plain(step: Step) {
    || step.Cmd? || step.Note? || step.Refreshing? || step.Tick?
    || (step.Dog? && step.dog.DogStart?) || (step.Host? && step.host.HostRequest?)
  }

  /** With all publications carried out. */
  function Settled(s: Sys): Sys {
    s.(core := Settle(s.core, s.now))
  }

  /** A timer of relay.c expires in s, and the locked part of its handler and its publication end in t. */
  predicate Handled(cfg: Config, s: Sys, fire: Handler, body: Handler, t: Sys) {
    && Enabled(s, Timer(fire))
    && var u := NextTimer(cfg, s, fire);
       Enabled(u, Timer(body)) && t == Settled(NextTimer(cfg, u, body))
  }

  /** The rest of the lease handler, if it has to reboot: the submission and, if that is accepted, the warning. */
  predicate TailHandled(cfg: Config, u: Sys, scheduled: bool, warned: bool, t: Sys) {
    && Enabled(u, Timer(LeaseSubmission(scheduled)))
    && var v := NextTimer(cfg, u, LeaseSubmission(scheduled));
       if scheduled then Enabled(v, Timer(LeaseWarning(warned))) && t == NextTimer(cfg, v, LeaseWarning(warned))
       else t == v
  }

  /** The handler of a host request: everything off and published, then the reset, unless that failed. */
  predicate HostHandled(cfg: Config, s: Sys, kind: ResetKind, writes: seq<Write>, back: bool, t: Sys) {
    && Enabled(s, Host(HostFire(kind)))
    && var u := NextHost(cfg, s, HostFire(kind));
       Enabled(u, Host(HostOff(kind, writes)))
       && var v := Settled(NextHost(cfg, u, HostOff(kind, writes)));
          if Succeeding(writes) < CHANNELS then t == v
          else Enabled(v, Host(HostReset(kind, back))) && t == NextHost(cfg, v, HostReset(kind, back))
  }

  ghost predicate Moved(cfg: Config, s: Sys, m: Move, t: Sys) {
    match m
    case Do(step) => Plain(step) && Enabled(s, step) && t == Settled(Next(cfg, s, step))
    case PulseExpiry(ch, w) => Handled(cfg, s, PulseFire(ch), PulseBody(ch, w), t)
    case LeaseExpiry(writes, scheduled, warned) =>
      exists u :: Handled(cfg, s, LeaseFire, LeaseBody(writes), u) &&
        if LeaseWantsReboot(cfg, s.core, writes) then TailHandled(cfg, u, scheduled, warned, t) else t == u
    case WarningExpiry => Handled(cfg, s, WarningFire, WarningBody, t)
    case RebootExpiry(back) => Handled(cfg, s, RebootFire, RebootBody(back), t)
    case DogExpiry(fed, accepted) =>
      && Enabled(s, Dog(DogSample))
      && var u := NextDog(cfg, s, DogSample);
         Enabled(u, Dog(DogBody(fed, accepted))) && t == NextDog(cfg, u, DogBody(fed, accepted))
    case HostExpiry(kind, writes, back) => HostHandled(cfg, s, kind, writes, back, t)
  }

  ghost predicate MovedAt(cfg: Config, moves: seq<Move>, states: seq<Sys>, k: nat)
    requires k < |moves| < |states|
  {
    Moved(cfg, states[k], moves[k], states[k + 1])
  }

  /** The states passed through by a run of whole moves, from the boot state on. */
  ghost predicate Behaviour(cfg: Config, now: nat, moves: seq<Move>, states: seq<Sys>) {
    && |states| == |moves| + 1 && states[0] == Boot(cfg, now)
    && forall k :: 0 <= k < |moves| ==> MovedAt(cfg, moves, states, k)
  }

  // ----- The invariant -----

  /** A pulse, its timer and its recorded duration go together, and the timer is due when the pulse should end. */
  predicate PulsesExact(r: Relay, starts: seq<nat>)
    requires Shaped(r) && |starts| == CHANNELS
  {
    forall ch :: 0 <= ch < CHANNELS ==>
      && (ch in r.pulsing <==> r.durations[ch] != 0)
      && r.pulseWork[ch].due == if ch in r.pulsing then Some(starts[ch] + r.durations[ch]) else None
  }

  /** No handler of a pulse is in flight and no pulse timer is overdue. */
  predicate PulsesAhead(r: Relay, now: nat)
    requires Shaped(r)
  {
    forall ch :: 0 <= ch < CHANNELS ==> r.pulseWork[ch].running == 0 && NotPast(r.pulseWork[ch].due, now)
  }

  predicate Ahead(w: Work, now: nat) {
    w.running == 0 && NotPast(w.due, now)
  }

  predicate LeaseExact(cfg: Config, c: Core, lastRenew: nat) {
    && (cfg.HasTimeout() && c.relay.on != {} && !CoreIoFailed(c) ==>
         c.relay.lease.due == Some(lastRenew + cfg.timeoutMs))
    && (c.relay.lease.due.Some? ==> c.relay.armed)
  }

  predicate RebootExact(c: Core) {
    && (RebootPending(c) ==> c.relay.rebootScheduled)
    && (c.relay.reboot.due.Some? ==> c.relay.rebootScheduled)
    && (c.relay.rebootScheduled ==>
         !c.relay.armed && c.relay.pulsing == {} && (!CoreIoFailed(c) ==> c.relay.on == {}))
  }

  /** The part of the invariant about relay.c and its timers. */
  predicate Exact(cfg: Config, c: Core, now: nat, lastRenew: nat, starts: seq<nat>) {
    && Locked(cfg, c) && |starts| == CHANNELS
    && PulsesExact(c.relay, starts) && PulsesAhead(c.relay, now)
    && LeaseExact(cfg, c, lastRenew) && RebootExact(c)
    && Ahead(c.relay.lease, now) && Ahead(c.relay.warning, now) && Ahead(c.relay.reboot, now)
  }

  /** Nothing is half done, but for publications. */
  predicate Whole(s: Sys) {
    && s.leaseTails == 0 && s.leaseWarns == 0 && s.hostTails == 0 && s.bootselTails == 0
    && s.dog.sample.None? && NotPast(s.dog.due, s.now)
    && Ahead(s.host, s.now) && Ahead(s.bootsel, s.now)
  }

  /** Everything but that no publication is under way. */
  predicate Unsettled(cfg: Config, s: Sys) {
    && Safe(cfg, s) && Exact(cfg, s.core, s.now, s.lastRenew, s.starts) && Whole(s) && s.lastRenew <= s.now
    && (s.mode == Reset(Autonomous) ==> s.core.relay.rebootScheduled)
    && TellsFirst(s.core.board.pending)
  }

  predicate Timed(cfg: Config, s: Sys) {
    Unsettled(cfg, s) && s.core.board.pending == []
  }

  // ----- Publication -----

  /** Carrying out the publications changes neither the relays nor a reason, and leaves none. */
  lemma {:induction false} SettleKeeps(c: Core, at: int)
    requires TellsFirst(c.board.pending)
    ensures var d := Settle(c, at);
            && d.relay == c.relay && d.board.pending == []
            && forall r: H.Reason :: H.Active(d.log, r) <==> H.Active(c.log, r)
    decreases TotalEffort(c.board.pending)
  {
    if c.board.pending != [] {
      JobEffort(c, at);
      JobEffect(c, 0, at);
      JobTellsFirst(c, 0, at);
      SettleKeeps(RunJob(c, 0, at), at);
    }
  }

  lemma SettledTimed(cfg: Config, s: Sys)
    requires Unsettled(cfg, s)
    ensures Timed(cfg, Settled(s))
  {
    SettleKeeps(s.core, s.now);
  }

  /** After a step there is at most a report to publish. */
  lemma ReportTells(c: Core, d: Core, now: nat, reports: bool, failed: bool)
    requires c.board.pending == [] && ReportedOrNot(c, d, now, reports, failed)
    ensures TellsFirst(d.board.pending)
  {
  }

  lemma StepTells(cfg: Config, s: Sys, step: Step)
    requires Safe(cfg, s) && s.core.board.pending == [] && Enabled(s, step) && !step.Publish?
    ensures TellsFirst(Next(cfg, s, step).core.board.pending)
  {
    if !step.Refreshing? {
      StepBoard(cfg, s, step);
      var t := Next(cfg, s, step);
      ReportTells(s.core, t.core, s.now, Reports(cfg, s, step), t.submitFailed);
    }
  }

  // ----- Commands -----

  /** A successful command, from the relay state it renews the lease of. */
  lemma RenewalExact(cfg: Config, c: Core, d: Core, base: Relay, now: nat, lastRenew: nat, starts: seq<nat>)
    requires RebootExact(c) && Locked(cfg, d)
    requires Shaped(base) && |starts| == CHANNELS && PulsesExact(base, starts) && PulsesAhead(base, now)
    requires base.lease.running == 0 && base.warning.running == 0 && base.reboot.running == 0
    requires d.relay == ScheduleLease(cfg, CancelReboot(base), now) && RenewedReasons(c, d)
    ensures Exact(cfg, d, now, now, starts)
  {
  }

  /** A command or handler stopped by a failed write, which changed at most the pulses and the pins. */
  lemma FailureExact(cfg: Config, c: Core, d: Core, now: nat, lastRenew: nat, starts: seq<nat>)
    requires Exact(cfg, c, now, lastRenew, starts) && Locked(cfg, d) && FailedReasons(c, d)
    requires PulsesExact(d.relay, starts) && PulsesAhead(d.relay, now) && d.relay.pulsing <= c.relay.pulsing
    requires d.relay.(pins := c.relay.pins, pulsing := c.relay.pulsing,
                      durations := c.relay.durations, pulseWork := c.relay.pulseWork) == c.relay
    ensures Exact(cfg, d, now, lastRenew, starts)
  {
  }

  lemma CancelExact(r: Relay, starts: seq<nat>, now: nat, mask: set<nat>)
    requires Shaped(r) && |starts| == CHANNELS && PulsesExact(r, starts) && PulsesAhead(r, now)
    ensures PulsesExact(CancelPulses(r, mask), starts) && PulsesAhead(CancelPulses(r, mask), now)
  {
  }

  lemma StartExact(r: Relay, starts: seq<nat>, now: nat, ch: nat, duration: nat)
    requires Shaped(r) && |starts| == CHANNELS && PulsesExact(r, starts) && PulsesAhead(r, now)
    requires ch < CHANNELS && ch !in r.pulsing && duration > 0
    ensures var p := StartPulse(r, ch, duration, now + duration);
            PulsesExact(p, starts[ch := now]) && PulsesAhead(p, now)
  {
    assert r.pulseWork[ch].due == None;
  }

  lemma SetExact(cfg: Config, c: Core, now: nat, lastRenew: nat, starts: seq<nat>, ch: nat, on: bool, w: Write)
    requires Exact(cfg, c, now, lastRenew, starts) && Protected(cfg, c) && ch < CHANNELS
    ensures var d := Set(cfg, c, now, ch, on, w).0;
            && Exact(cfg, d, now, if w.Written? then now else lastRenew, starts)
  {
    var d := Set(cfg, c, now, ch, on, w).0;
    SetKeeps(cfg, c, now, ch, on, w);
    SetEffect(cfg, c, now, ch, on, w);
    CancelExact(c.relay, starts, now, {ch});
    if w.Written? {
      SetDone(cfg, c, d, CancelPulses(c.relay, {ch}), now, lastRenew, starts, ch, on);
    } else {
      SetStopped(cfg, c, d, CancelPulses(c.relay, {ch}), now, lastRenew, starts);
    }
  }

  /** A channel whose pulse was cancelled, but whose switching failed. */
  lemma SetStopped(cfg: Config, c: Core, d: Core, base: Relay, now: nat, lastRenew: nat, starts: seq<nat>)
    requires Exact(cfg, c, now, lastRenew, starts) && Locked(cfg, d) && FailedReasons(c, d)
    requires Shaped(base) && PulsesExact(base, starts) && PulsesAhead(base, now) && base.pulsing <= c.relay.pulsing
    requires base.(pulsing := c.relay.pulsing, durations := c.relay.durations, pulseWork := c.relay.pulseWork)
             == c.relay
    requires d.relay.(pins := base.pins) == base
    ensures Exact(cfg, d, now, lastRenew, starts)
  {
    FailureExact(cfg, c, d, now, lastRenew, starts);
  }

  /** A channel that was switched, its pulse cancelled. */
  lemma SetDone(cfg: Config, c: Core, d: Core, base: Relay, now: nat, lastRenew: nat, starts: seq<nat>,
                ch: nat, on: bool)
    requires Exact(cfg, c, now, lastRenew, starts) && Locked(cfg, d) && ch < CHANNELS && RenewedReasons(c, d)
    requires Shaped(base) && PulsesExact(base, starts) && PulsesAhead(base, now)
    requires base.lease == c.relay.lease && base.warning == c.relay.warning && base.reboot == c.relay.reboot
    requires d.relay == ScheduleLease(cfg, CancelReboot(
               base.(pins := base.pins[ch := on], on := if on then base.on + {ch} else base.on - {ch})), now)
    ensures Exact(cfg, d, now, now, starts)
  {
    var next := base.(pins := base.pins[ch := on], on := if on then base.on + {ch} else base.on - {ch});
    assert next.pulsing == base.pulsing && next.durations == base.durations && next.pulseWork == base.pulseWork;
    RenewalExact(cfg, c, d, next, now, lastRenew, starts);
  }

  lemma SetAllExact(cfg: Config, c: Core, now: nat, lastRenew: nat, starts: seq<nat>,
                    mask: set<nat>, writes: seq<Write>)
    requires Exact(cfg, c, now, lastRenew, starts) && Protected(cfg, c) && mask <= ALL && |writes| == CHANNELS
    ensures var (d, ret) := SetAll(cfg, c, now, mask, writes);
            && (ret == Success || ret == IoFailure)
            && Exact(cfg, d, now, if ret == Success then now else lastRenew, starts)
  {
    var d := SetAll(cfg, c, now, mask, writes).0;
    SetAllKeeps(cfg, c, now, mask, writes);
    SetAllEffect(cfg, c, now, mask, writes);
    CancelExact(c.relay, starts, now, ALL);
    var base := CancelPulses(c.relay, ALL);
    if Succeeding(writes) == CHANNELS {
      RenewalExact(cfg, c, d, base.(pins := DrivenPins(base.pins, mask, writes), on := mask), now, lastRenew, starts);
    } else {
      FailureExact(cfg, c, d, now, lastRenew, starts);
    }
  }

  lemma PulseStartedExact(cfg: Config, c: Core, d: Core, now: nat, lastRenew: nat, starts: seq<nat>,
                          ch: nat, duration: nat)
    requires Exact(cfg, c, now, lastRenew, starts) && Locked(cfg, d)
    requires ch < CHANNELS && ch !in c.relay.pulsing && duration > 0 && RenewedReasons(c, d)
    requires d.relay == ScheduleLease(cfg, CancelReboot(StartPulse(
               c.relay.(pins := c.relay.pins[ch := true], on := c.relay.on + {ch}),
               ch, duration, now + duration)), now)
    ensures Exact(cfg, d, now, now, starts[ch := now])
  {
    var r := c.relay.(pins := c.relay.pins[ch := true], on := c.relay.on + {ch});
    StartExact(r, starts, now, ch, duration);
    RenewalExact(cfg, c, d, StartPulse(r, ch, duration, now + duration), now, lastRenew, starts[ch := now]);
  }

  lemma PulseUndoneExact(cfg: Config, c: Core, d: Core, now: nat, lastRenew: nat, starts: seq<nat>, ch: nat)
    requires Exact(cfg, c, now, lastRenew, starts) && Locked(cfg, d) && ch < CHANNELS && ch !in c.relay.pulsing
    requires (CoreIoFailed(c) ==> CoreIoFailed(d)) && (RebootPending(d) <==> RebootPending(c))
    requires d.relay.(pins := c.relay.pins, on := c.relay.on) == c.relay.(durations := c.relay.durations[ch := 0])
    requires d.relay.on == c.relay.on - {ch} || (d.relay.on == c.relay.on + {ch} && CoreIoFailed(d))
    ensures Exact(cfg, d, now, lastRenew, starts)
  {
    assert c.relay.durations[ch] == 0;
    assert d.relay.durations == c.relay.durations;
    assert d.relay.pulseWork == c.relay.pulseWork && d.relay.pulsing == c.relay.pulsing;
  }

  lemma PulseExact(cfg: Config, c: Core, now: nat, lastRenew: nat, starts: seq<nat>,
                   ch: nat, duration: nat, w: Write, scheduled: bool, off: Write)
    requires Exact(cfg, c, now, lastRenew, starts) && Protected(cfg, c)
    requires ch < CHANNELS && PULSE_MIN_MS <= duration <= PULSE_MAX_MS && ch !in c.relay.pulsing
    ensures var (d, ret) := Pulse(cfg, c, now, ch, duration, w, scheduled, off);
            && (ret == Success ==> Exact(cfg, d, now, now, starts[ch := now]))
            && (ret != Success ==> ret == IoFailure && Exact(cfg, d, now, lastRenew, starts))
  {
    var d := Pulse(cfg, c, now, ch, duration, w, scheduled, off).0;
    PulseKeeps(cfg, c, now, ch, duration, w, scheduled, off);
    PulseEffect(cfg, c, now, ch, duration, w, scheduled, off);
    if w.WriteFailed? {
      FailureExact(cfg, c, d, now, lastRenew, starts);
    } else if !scheduled {
      PulseUndoneExact(cfg, c, d, now, lastRenew, starts, ch);
    } else {
      PulseStartedExact(cfg, c, d, now, lastRenew, starts, ch, duration);
    }
  }

  lemma HeartbeatExact(cfg: Config, c: Core, now: nat, lastRenew: nat, starts: seq<nat>)
    requires Exact(cfg, c, now, lastRenew, starts) && Protected(cfg, c)
    ensures var d := Heartbeat(cfg, c, now);
            && Exact(cfg, d, now, now, starts)
            && d.relay.on == c.relay.on && d.relay.pulsing == c.relay.pulsing
            && (CoreIoFailed(d) <==> CoreIoFailed(c))
  {
    HeartbeatKeeps(cfg, c, now);
    RenewKeeps(cfg, c, now);
    LeaseRenewed(cfg, c, Heartbeat(cfg, c, now), now, lastRenew, starts);
  }

  lemma LeaseRenewed(cfg: Config, c: Core, d: Core, now: nat, lastRenew: nat, starts: seq<nat>)
    requires Exact(cfg, c, now, lastRenew, starts) && Locked(cfg, d)
    requires d.relay == ScheduleLease(cfg, CancelReboot(c.relay), now) && (CoreIoFailed(d) <==> CoreIoFailed(c))
    requires RebootPending(d) <==> RebootPending(c) && !c.relay.rebootScheduled
    ensures Exact(cfg, d, now, now, starts) && d.relay.on == c.relay.on && d.relay.pulsing == c.relay.pulsing
  {
  }

  lemma CommandTimed(cfg: Config, s: Sys, cmd: Command)
    requires Timed(cfg, s) && Enabled(s, Cmd(cmd))
    ensures var t := NextCommand(cfg, s, cmd);
            && Safe(cfg, t) && Exact(cfg, t.core, t.now, t.lastRenew, t.starts) && t.lastRenew <= t.now
            && t == s.(core := t.core, lastRenew := t.lastRenew, starts := t.starts, submitFailed := t.submitFailed)
  {
    CommandKeeps(cfg, s, cmd);
    match cmd
    case SetStep(ch, on, w) =>
      if ch < CHANNELS {
        SetExact(cfg, s.core, s.now, s.lastRenew, s.starts, ch, on, w);
      }
    case SetAllStep(mask, writes) =>
      if mask <= ALL {
        SetAllExact(cfg, s.core, s.now, s.lastRenew, s.starts, mask, writes);
      }
    case PulseStep(ch, duration, w, scheduled, off) =>
      if ch < CHANNELS && PULSE_MIN_MS <= duration <= PULSE_MAX_MS && ch !in s.core.relay.pulsing {
        PulseExact(cfg, s.core, s.now, s.lastRenew, s.starts, ch, duration, w, scheduled, off);
      }
    case HeartbeatStep => HeartbeatExact(cfg, s.core, s.now, s.lastRenew, s.starts);
  }

  // ----- Handlers, from expiry to end -----

  lemma PulseExpiryExact(cfg: Config, c: Core, now: nat, lastRenew: nat, starts: seq<nat>, ch: nat, w: Write)
    requires Exact(cfg, c, now, lastRenew, starts) && Protected(cfg, c) && ch < CHANNELS
    requires c.relay.pulseWork[ch].due.Some?
    ensures var fired := c.(relay := c.relay.(pulseWork := c.relay.pulseWork[ch := IDLE]));
            var d := PulseExpired(cfg, fired, now, ch, w);
            && Exact(cfg, d, now, lastRenew, starts) && Protected(cfg, d)
  {
    var fired := c.(relay := c.relay.(pulseWork := c.relay.pulseWork[ch := IDLE]));
    assert PulsesLive(fired.relay, {ch});
    PulseExpiredKeeps(cfg, fired, now, ch, w);
    PulseExpiredEffect(cfg, fired, now, ch, w);
    PulseEnded(cfg, c, PulseExpired(cfg, fired, now, ch, w), now, lastRenew, starts, ch, w);
  }

  /** A pulse whose handler has switched its channel off, or tried to. */
  lemma PulseEnded(cfg: Config, c: Core, d: Core, now: nat, lastRenew: nat, starts: seq<nat>, ch: nat, w: Write)
    requires Exact(cfg, c, now, lastRenew, starts) && Protected(cfg, c) && Protected(cfg, d) && ch < CHANNELS
    requires RebootPending(d) <==> RebootPending(c)
    requires var base := c.relay.(pulseWork := c.relay.pulseWork[ch := IDLE], pulsing := c.relay.pulsing - {ch},
                                  durations := c.relay.durations[ch := 0]);
             && (w.WriteFailed? ==> FailedReasons(c, d) && d.relay.(pins := base.pins) == base)
             && (w.Written? ==>
                  && (CoreIoFailed(d) <==> CoreIoFailed(c))
                  && d.relay == DisarmIfIdle(cfg, base.(pins := base.pins[ch := false], on := base.on - {ch})))
    ensures Exact(cfg, d, now, lastRenew, starts)
  {
    assert d.relay.durations == c.relay.durations[ch := 0] && d.relay.pulsing == c.relay.pulsing - {ch};
    assert d.relay.pulseWork == c.relay.pulseWork[ch := IDLE];
  }

  /** An expired lease that switched everything off. */
  lemma LeaseOffExact(cfg: Config, c: Core, d: Core, base: Relay, now: nat, lastRenew: nat, starts: seq<nat>)
    requires RebootExact(c) && Locked(cfg, d) && c.relay.armed && Shaped(base) && |starts| == CHANNELS
    requires PulsesExact(base, starts) && PulsesAhead(base, now) && base.pulsing == {} && base.on == {}
    requires base.lease == IDLE && Ahead(base.warning, now) && Ahead(base.reboot, now)
    requires base.rebootScheduled == c.relay.rebootScheduled && base.reboot == c.relay.reboot
    requires d.relay == AfterLease(cfg, base, now)
    requires (CoreIoFailed(d) <==> CoreIoFailed(c)) && (RebootPending(d) <==> RebootPending(c))
    ensures Exact(cfg, d, now, lastRenew, starts)
    ensures d.relay.reboot.due == None && (cfg.RebootsOnTimeout() ==> d.relay.rebootScheduled)
  {
  }

  /** How an armed lease handler ends, apart from its report. */
  lemma LeaseOutcome(cfg: Config, c: Core, now: nat, writes: seq<Write>, d: Core)
    requires Shaped(c.relay) && PinsMatch(c) && c.relay.armed && |writes| == CHANNELS
    requires d == LeaseExpired(cfg, c, now, writes)
    ensures var base := CancelPulses(c.relay, ALL);
            && Shaped(d.relay) && (RebootPending(d) <==> RebootPending(c))
            && (Succeeding(writes) < CHANNELS ==> FailedReasons(c, d) && d.relay.(pins := base.pins) == base)
            && (Succeeding(writes) == CHANNELS ==>
                 && (CoreIoFailed(d) <==> CoreIoFailed(c))
                 && d.relay == AfterLease(cfg, base.(pins := DrivenPins(base.pins, {}, writes), on := {}), now))
  {
    LeaseExpiredEffect(cfg, c, now, writes);
  }

  lemma LeaseExpiryExact(cfg: Config, c: Core, now: nat, lastRenew: nat, starts: seq<nat>, writes: seq<Write>)
    requires Exact(cfg, c, now, lastRenew, starts) && Protected(cfg, c) && |writes| == CHANNELS
    requires c.relay.lease.due.Some?
    ensures var d := LeaseExpired(cfg, c.(relay := c.relay.(lease := IDLE)), now, writes);
            && Exact(cfg, d, now, lastRenew, starts) && Protected(cfg, d)
            && (LeaseWantsReboot(cfg, c, writes) ==> d.relay.rebootScheduled && d.relay.reboot.due == None)
  {
    var fired := c.(relay := c.relay.(lease := IDLE));
    var d := LeaseExpired(cfg, fired, now, writes);
    LeaseExpiredKeeps(cfg, fired, now, writes);
    LeaseOutcome(cfg, fired, now, writes, d);
    CancelExact(fired.relay, starts, now, ALL);
    LeaseEndExact(cfg, c, d, CancelPulses(fired.relay, ALL), now, lastRenew, starts, writes);
  }

  lemma LeaseEndExact(cfg: Config, c: Core, d: Core, base: Relay, now: nat, lastRenew: nat, starts: seq<nat>,
                      writes: seq<Write>)
    requires Exact(cfg, c, now, lastRenew, starts) && Locked(cfg, d) && c.relay.armed && |writes| == CHANNELS
    requires base == CancelPulses(c.relay.(lease := IDLE), ALL) && Shaped(base)
    requires PulsesExact(base, starts) && PulsesAhead(base, now) && (RebootPending(d) <==> RebootPending(c))
    requires Succeeding(writes) < CHANNELS ==> FailedReasons(c, d) && d.relay.(pins := base.pins) == base
    requires Succeeding(writes) == CHANNELS ==>
               && (CoreIoFailed(d) <==> CoreIoFailed(c))
               && d.relay == AfterLease(cfg, base.(pins := DrivenPins(base.pins, {}, writes), on := {}), now)
    ensures Exact(cfg, d, now, lastRenew, starts)
    ensures LeaseWantsReboot(cfg, c, writes) ==> d.relay.rebootScheduled && d.relay.reboot.due == None
  {
    if Succeeding(writes) == CHANNELS {
      LeaseOffExact(cfg, c, d, base.(pins := DrivenPins(base.pins, {}, writes), on := {}), now, lastRenew, starts);
    } else {
      LeaseStuckExact(cfg, c, d, base, now, lastRenew, starts);
    }
  }

  /** An expired lease whose off-all failed: the write failure is latched and the lease stays armed. */
  lemma LeaseStuckExact(cfg: Config, c: Core, d: Core, base: Relay, now: nat, lastRenew: nat, starts: seq<nat>)
    requires Exact(cfg, c, now, lastRenew, starts) && Locked(cfg, d) && FailedReasons(c, d)
    requires base == CancelPulses(c.relay.(lease := IDLE), ALL) && d.relay.(pins := base.pins) == base
    requires PulsesExact(base, starts) && PulsesAhead(base, now)
    ensures Exact(cfg, d, now, lastRenew, starts)
  {
    assert d.relay.pulsing == {};
  }

  lemma LeaseSubmitExact(cfg: Config, c: Core, now: nat, lastRenew: nat, starts: seq<nat>, scheduled: bool)
    requires Exact(cfg, c, now, lastRenew, starts) && Protected(cfg, c)
    requires c.relay.rebootScheduled && c.relay.reboot.due == None
    ensures var d := LeaseSubmit(cfg, c, now, scheduled);
            && Exact(cfg, d, now, lastRenew, starts) && Protected(cfg, d)
            && (scheduled ==> d.relay.rebootScheduled)
  {
    LeaseSubmitEffect(cfg, c, now, scheduled);
  }

  lemma LeaseWarnExact(cfg: Config, c: Core, now: nat, lastRenew: nat, starts: seq<nat>, warned: bool)
    requires Exact(cfg, c, now, lastRenew, starts) && Protected(cfg, c) && c.relay.rebootScheduled
    ensures var d := LeaseWarn(cfg, c, now, warned);
            Exact(cfg, d, now, lastRenew, starts) && Protected(cfg, d)
  {
    LeaseWarnEffect(cfg, c, now, warned);
  }

  // ----- Moves -----

  lemma CommandMoved(cfg: Config, s: Sys, cmd: Command)
    requires Timed(cfg, s) && Enabled(s, Cmd(cmd))
    ensures Unsettled(cfg, NextCommand(cfg, s, cmd))
  {
    CommandTimed(cfg, s, cmd);
    StepTells(cfg, s, Cmd(cmd));
  }

  lemma PulseExpiryTimed(cfg: Config, s: Sys, ch: nat, w: Write, t: Sys)
    requires Timed(cfg, s) && Handled(cfg, s, PulseFire(ch), PulseBody(ch, w), t)
    ensures Timed(cfg, t)
  {
    var u := NextTimer(cfg, s, PulseFire(ch));
    var v := NextTimer(cfg, u, PulseBody(ch, w));
    PulseRuns(cfg, s, ch, w, u, v);
    PulseExpiryExact(cfg, s.core, s.now, s.lastRenew, s.starts, ch, w);
    PulseBodyTells(cfg, u, ch, w);
    CoreUnsettled(cfg, s, v);
    SettledTimed(cfg, v);
  }

  /** The two steps of the handler together. */
  lemma PulseRuns(cfg: Config, s: Sys, ch: nat, w: Write, u: Sys, v: Sys)
    requires Timed(cfg, s) && Enabled(s, Timer(PulseFire(ch))) && u == NextTimer(cfg, s, PulseFire(ch))
    requires Enabled(u, Timer(PulseBody(ch, w))) && v == NextTimer(cfg, u, PulseBody(ch, w))
    ensures var fired := s.core.(relay := s.core.relay.(pulseWork := s.core.relay.pulseWork[ch := IDLE]));
            v == s.(core := PulseExpired(cfg, fired, s.now, ch, w))
  {
    assert s.core.relay.pulseWork[ch := IDLE] ==
           s.core.relay.pulseWork[ch := s.core.relay.pulseWork[ch].Fire()][ch := IDLE];
  }

  /** A change of the core alone. */
  lemma CoreUnsettled(cfg: Config, s: Sys, t: Sys)
    requires Timed(cfg, s) && t == s.(core := t.core) && s.mode == Running && Protected(cfg, t.core)
    requires Exact(cfg, t.core, s.now, s.lastRenew, s.starts) && TellsFirst(t.core.board.pending)
    ensures Unsettled(cfg, t)
  {
  }

  lemma PulseBodyTells(cfg: Config, u: Sys, ch: nat, w: Write)
    requires Enabled(u, Timer(PulseBody(ch, w))) && PinsMatch(u.core) && u.core.board.pending == []
    ensures TellsFirst(NextTimer(cfg, u, PulseBody(ch, w)).core.board.pending)
  {
    var r := u.core.relay;
    PulseExpiredBoard(cfg, u.core.(relay := r.(pulseWork := r.pulseWork[ch := r.pulseWork[ch].Finish()])), u.now,
                      ch, w);
  }

  /** After the locked part of the lease handler and its publication. */
  predicate LeaseHandled(cfg: Config, s: Sys, writes: seq<Write>, u: Sys) {
    && Timed(cfg, u.(leaseTails := 0)) && |writes| == CHANNELS
    && u.leaseTails == (if LeaseWantsReboot(cfg, s.core, writes) then 1 else 0)
    && (LeaseWantsReboot(cfg, s.core, writes) ==> u.core.relay.rebootScheduled && u.core.relay.reboot.due == None)
  }

  lemma LeaseBodyTells(cfg: Config, c: Core, now: nat, writes: seq<Write>)
    requires Shaped(c.relay) && PinsMatch(c) && |writes| == CHANNELS && c.board.pending == []
    ensures TellsFirst(LeaseExpired(cfg, c, now, writes).board.pending)
  {
    LeaseExpiredBoard(cfg, c, now, writes);
  }

  lemma LeaseBodyTimed(cfg: Config, s: Sys, writes: seq<Write>, u: Sys)
    requires Timed(cfg, s) && Handled(cfg, s, LeaseFire, LeaseBody(writes), u)
    ensures LeaseHandled(cfg, s, writes, u)
  {
    var fired := s.core.(relay := s.core.relay.(lease := IDLE));
    LeaseExpiryExact(cfg, s.core, s.now, s.lastRenew, s.starts, writes);
    LeaseBodyTells(cfg, fired, s.now, writes);
    var v := NextTimer(cfg, NextTimer(cfg, s, LeaseFire), LeaseBody(writes));
    assert v.core == LeaseExpired(cfg, fired, s.now, writes);
    CoreUnsettled(cfg, s, v.(leaseTails := 0));
    SettledTimed(cfg, v.(leaseTails := 0));
    SettleKeeps(v.core, s.now);
  }

  lemma LeaseTailTimed(cfg: Config, s: Sys, writes: seq<Write>, u: Sys, scheduled: bool, warned: bool, t: Sys)
    requires LeaseHandled(cfg, s, writes, u) && LeaseWantsReboot(cfg, s.core, writes)
    requires TailHandled(cfg, u, scheduled, warned, t)
    ensures Timed(cfg, t)
  {
    LeaseSubmitExact(cfg, u.core, u.now, u.lastRenew, u.starts, scheduled);
    LeaseSubmitEffect(cfg, u.core, u.now, scheduled);
    var v := NextTimer(cfg, u, LeaseSubmission(scheduled));
    if scheduled {
      LeaseWarnExact(cfg, v.core, v.now, v.lastRenew, v.starts, warned);
      LeaseWarnEffect(cfg, v.core, v.now, warned);
    }
  }

  lemma LeaseExpiryTimed(cfg: Config, s: Sys, writes: seq<Write>, scheduled: bool, warned: bool, u: Sys, t: Sys)
    requires Timed(cfg, s) && Handled(cfg, s, LeaseFire, LeaseBody(writes), u)
    requires if LeaseWantsReboot(cfg, s.core, writes) then TailHandled(cfg, u, scheduled, warned, t) else t == u
    ensures Timed(cfg, t)
  {
    LeaseBodyTimed(cfg, s, writes, u);
    if LeaseWantsReboot(cfg, s.core, writes) {
      LeaseTailTimed(cfg, s, writes, u, scheduled, warned, t);
    }
  }

  lemma WarningExact(cfg: Config, c: Core, now: nat, lastRenew: nat, starts: seq<nat>)
    requires Exact(cfg, c, now, lastRenew, starts) && Protected(cfg, c)
    ensures var d := WarningExpired(c.(relay := c.relay.(warning := IDLE)));
            Exact(cfg, d, now, lastRenew, starts) && Protected(cfg, d) && d.board == c.board
  {
    Told(c.(relay := c.relay.(warning := IDLE, warningScheduled := false)), H.SetCommRebootPending(true));
  }

  lemma WarningExpiryTimed(cfg: Config, s: Sys, t: Sys)
    requires Timed(cfg, s) && Handled(cfg, s, WarningFire, WarningBody, t)
    ensures Timed(cfg, t)
  {
    var u := s.(core := WarningExpired(s.core.(relay := s.core.relay.(warning := IDLE))));
    assert t == Settled(u);
    WarningExact(cfg, s.core, s.now, s.lastRenew, s.starts);
    CoreUnsettled(cfg, s, u);
    SettledTimed(cfg, u);
  }

  lemma RebootExpiryTimed(cfg: Config, s: Sys, back: bool, t: Sys)
    requires Timed(cfg, s) && Handled(cfg, s, RebootFire, RebootBody(back), t)
    ensures Timed(cfg, t)
  {
    var c := s.core.(relay := s.core.relay.(reboot := IDLE));
    Told(c, H.RecordRebootFailed);
    var u := if back then s.(core := Tell(c, H.RecordRebootFailed)) else s.(core := c, mode := Reset(Autonomous));
    assert t == Settled(u);
    SettledTimed(cfg, u);
  }

  /** A change of the supervisor and of the health calls alone. */
  lemma DogSideTimed(cfg: Config, s: Sys, t: Sys)
    requires Timed(cfg, s) && Safe(cfg, t) && t == s.(dog := t.dog, core := t.core)
    requires t.core.relay == s.core.relay && t.core.board == s.core.board
    requires (CoreIoFailed(s.core) ==> CoreIoFailed(t.core)) && (RebootPending(t.core) ==> RebootPending(s.core))
    requires t.dog.sample == None && NotPast(t.dog.due, t.now)
    ensures Timed(cfg, t)
  {
  }

  lemma DogTimed(cfg: Config, s: Sys, d: DogAction, t: Sys)
    requires Timed(cfg, s) && Enabled(s, Dog(d)) && d.DogStart? && t == NextDog(cfg, s, d)
    ensures Timed(cfg, t)
  {
    DogKeeps(cfg, s, d);
    DogSideTimed(cfg, s, t);
  }

  lemma DogExpiryTimed(cfg: Config, s: Sys, fed: bool, accepted: bool, t: Sys)
    requires Timed(cfg, s) && Moved(cfg, s, DogExpiry(fed, accepted), t)
    ensures Timed(cfg, t)
  {
    var u := NextDog(cfg, s, DogSample);
    DogKeeps(cfg, s, DogSample);
    DogKeeps(cfg, u, DogBody(fed, accepted));
    DogBodyEnds(cfg, u, fed, accepted, t);
    DogSideTimed(cfg, s, t);
  }

  lemma DogBodyEnds(cfg: Config, u: Sys, fed: bool, accepted: bool, t: Sys)
    requires Enabled(u, Dog(DogBody(fed, accepted))) && t == NextDog(cfg, u, DogBody(fed, accepted))
    requires u.dog.due == None
    ensures t.dog.sample == None && NotPast(t.dog.due, t.now)
  {
  }

  /** An off-all from whole handlers, with what a host handler records of it. */
  lemma OffExact(cfg: Config, s: Sys, writes: seq<Write>, lastRenew: nat, off: Core)
    requires Timed(cfg, s) && |writes| == CHANNELS
    requires var (d, ret) := SetAll(cfg, s.core, s.now, {}, writes);
             && off == (if ret == Success then d else Tell(d, H.RecordRebootFailed))
             && lastRenew == (if ret == Success then s.now else s.lastRenew)
    ensures Exact(cfg, off, s.now, lastRenew, s.starts) && Protected(cfg, off) && TellsFirst(off.board.pending)
  {
    SetAllExact(cfg, s.core, s.now, s.lastRenew, s.starts, {}, writes);
    SetAllKeeps(cfg, s.core, s.now, {}, writes);
    RecordExact(cfg, SetAll(cfg, s.core, s.now, {}, writes).0, s.now, lastRenew, s.starts);
    OffTells(cfg, s.core, s.now, writes);
  }

  lemma OffTells(cfg: Config, c: Core, now: nat, writes: seq<Write>)
    requires Protected(cfg, c) && |writes| == CHANNELS && c.board.pending == []
    ensures TellsFirst(SetAll(cfg, c, now, {}, writes).0.board.pending)
  {
    SetAllBoard(cfg, c, now, {}, writes);
  }

  lemma RecordExact(cfg: Config, c: Core, now: nat, lastRenew: nat, starts: seq<nat>)
    requires Exact(cfg, c, now, lastRenew, starts) && Protected(cfg, c)
    ensures var d := Tell(c, H.RecordRebootFailed);
            Exact(cfg, d, now, lastRenew, starts) && Protected(cfg, d) && d.board == c.board
  {
    Told(c, H.RecordRebootFailed);
  }

  /** What the off-all of a host handler leaves, and its publication. */
  predicate OffHandled(cfg: Config, s: Sys, kind: ResetKind, writes: seq<Write>, v: Sys) {
    && Timed(cfg, WithResetTails(v, kind, 0)) && v.mode == Running
    && ResetTails(v, kind) == (if Succeeding(writes) == CHANNELS then 1 else 0)
  }

  /** The fields after the locked part of a host handler, from the expiry of its timer on. */
  lemma HostOffFields(cfg: Config, s: Sys, kind: ResetKind, writes: seq<Write>, result: (Core, Ret), u: Sys, v: Sys)
    requires Whole(s) && Enabled(s, Host(HostFire(kind))) && u == NextHost(cfg, s, HostFire(kind))
    requires Enabled(u, Host(HostOff(kind, writes))) && v == NextHost(cfg, u, HostOff(kind, writes))
    requires result == SetAll(cfg, s.core, s.now, {}, writes)
    ensures v.core == (if result.1 == Success then result.0 else Tell(result.0, H.RecordRebootFailed))
    ensures v.lastRenew == (if result.1 == Success then s.now else s.lastRenew) && v.mode == Running
    ensures ResetTails(v, kind) == if result.1 == Success then 1 else 0
    ensures var t := WithResetTails(v, kind, 0);
            && t == s.(core := v.core, lastRenew := v.lastRenew, host := t.host, bootsel := t.bootsel)
            && Ahead(t.host, s.now) && Ahead(t.bootsel, s.now)
  {
  }

  lemma HostOffTimed(cfg: Config, s: Sys, kind: ResetKind, writes: seq<Write>, u: Sys, v: Sys)
    requires Timed(cfg, s) && Enabled(s, Host(HostFire(kind))) && u == NextHost(cfg, s, HostFire(kind))
    requires Enabled(u, Host(HostOff(kind, writes))) && v == NextHost(cfg, u, HostOff(kind, writes))
    ensures OffHandled(cfg, s, kind, writes, Settled(v))
  {
    var result := SetAll(cfg, s.core, s.now, {}, writes);
    HostOffFields(cfg, s, kind, writes, result, u, v);
    OffExact(cfg, s, writes, v.lastRenew, v.core);
    SetAllBoard(cfg, s.core, s.now, {}, writes);
    OffSettled(cfg, s, v, kind);
  }

  lemma OffSettled(cfg: Config, s: Sys, v: Sys, kind: ResetKind)
    requires Timed(cfg, s) && s.mode == Running && v.lastRenew <= s.now
    requires var t := WithResetTails(v, kind, 0);
             && t == s.(core := v.core, lastRenew := v.lastRenew, host := t.host, bootsel := t.bootsel)
             && Ahead(t.host, s.now) && Ahead(t.bootsel, s.now)
    requires Exact(cfg, v.core, s.now, v.lastRenew, s.starts) && Protected(cfg, v.core)
    requires TellsFirst(v.core.board.pending)
    ensures Timed(cfg, WithResetTails(Settled(v), kind, 0))
    ensures Settled(v).mode == v.mode && ResetTails(Settled(v), kind) == ResetTails(v, kind)
  {
    OffUnsettled(cfg, s, v, WithResetTails(v, kind, 0));
    SettledTimed(cfg, WithResetTails(v, kind, 0));
  }

  lemma OffUnsettled(cfg: Config, s: Sys, v: Sys, t: Sys)
    requires Timed(cfg, s) && s.mode == Running && v.core == t.core && v.lastRenew == t.lastRenew <= s.now
    requires t == s.(core := t.core, lastRenew := t.lastRenew, host := t.host, bootsel := t.bootsel)
    requires Ahead(t.host, s.now) && Ahead(t.bootsel, s.now) && Protected(cfg, t.core)
    requires Exact(cfg, t.core, s.now, t.lastRenew, s.starts) && TellsFirst(t.core.board.pending)
    ensures Unsettled(cfg, t)
  {
  }

  lemma ResetTimed(cfg: Config, v: Sys, kind: ResetKind, back: bool, t: Sys)
    requires Timed(cfg, WithResetTails(v, kind, 0)) && ResetTails(v, kind) == 1 && kind != Autonomous
    requires Enabled(v, Host(HostReset(kind, back))) && t == NextHost(cfg, v, HostReset(kind, back))
    ensures Timed(cfg, t)
  {
    var w := WithResetTails(v, kind, 0);
    Told(v.core, H.RecordRebootFailed);
    assert t == if back then w.(core := Tell(w.core, H.RecordRebootFailed)) else w.(mode := Reset(kind));
    RecordExact(cfg, w.core, w.now, w.lastRenew, w.starts);
    if back {
      CoreUnsettled(cfg, w, t);
    }
  }

  lemma HostExpiryTimed(cfg: Config, s: Sys, kind: ResetKind, writes: seq<Write>, back: bool, t: Sys)
    requires Timed(cfg, s) && HostHandled(cfg, s, kind, writes, back, t)
    ensures Timed(cfg, t)
  {
    var u := NextHost(cfg, s, HostFire(kind));
    var v := NextHost(cfg, u, HostOff(kind, writes));
    HostOffTimed(cfg, s, kind, writes, u, v);
    HostTailTimed(cfg, s, kind, writes, back, Settled(v), t);
  }

  lemma HostTailTimed(cfg: Config, s: Sys, kind: ResetKind, writes: seq<Write>, back: bool, v: Sys, t: Sys)
    requires OffHandled(cfg, s, kind, writes, v)
    requires if Succeeding(writes) < CHANNELS then t == v
             else Enabled(v, Host(HostReset(kind, back))) && t == NextHost(cfg, v, HostReset(kind, back))
    ensures Timed(cfg, t)
  {
    if Succeeding(writes) == CHANNELS {
      ResetTimed(cfg, v, kind, back, t);
    } else {
      assert v == WithResetTails(v, kind, 0);
    }
  }

  lemma HostRequestTimed(cfg: Config, s: Sys, kind: ResetKind, scheduled: bool)
    requires Timed(cfg, s) && Enabled(s, Host(HostRequest(kind, scheduled)))
    ensures Timed(cfg, NextHost(cfg, s, HostRequest(kind, scheduled)))
  {
    Told(s.core, H.RecordRebootFailed);
    Told(s.core, H.SetHostRebootPending(true));
    var t := NextHost(cfg, s, HostRequest(kind, scheduled));
    assert t.core.relay == s.core.relay && t.core.board == s.core.board;
    HostSideTimed(cfg, s, t);
  }

  /** A change of the host's work items and health alone. */
  lemma HostSideTimed(cfg: Config, s: Sys, t: Sys)
    requires Timed(cfg, s) && Safe(cfg, t) && Ahead(t.host, s.now) && Ahead(t.bootsel, s.now)
    requires t == s.(core := t.core, host := t.host, bootsel := t.bootsel)
    requires t.core.relay == s.core.relay && t.core.board == s.core.board
    requires (CoreIoFailed(t.core) <==> CoreIoFailed(s.core)) && (RebootPending(t.core) ==> RebootPending(s.core))
    ensures Timed(cfg, t)
  {
  }

  lemma NoteTimed(cfg: Config, s: Sys, e: H.Event)
    requires Timed(cfg, s) && (e.SetRpcReady? || e.SetIndicatorDegraded? || e.SetRelayGpioReady?)
    ensures Timed(cfg, s.(core := Tell(s.core, e)))
  {
    Told(s.core, e);
  }

  lemma PlainTimed(cfg: Config, s: Sys, step: Step)
    requires Timed(cfg, s) && Plain(step) && Enabled(s, step)
    ensures Unsettled(cfg, Next(cfg, s, step))
  {
    match step
    case Cmd(cmd) => CommandMoved(cfg, s, cmd);
    case Dog(d) => DogTimed(cfg, s, d, NextDog(cfg, s, d));
    case Host(h) => HostRequestTimed(cfg, s, h.kind, h.scheduled);
    case Note(e) => NoteTimed(cfg, s, e);
    case Refreshing =>
    case Tick(_) =>
  }

  lemma MoveTimed(cfg: Config, s: Sys, m: Move, t: Sys)
    requires Timed(cfg, s) && Moved(cfg, s, m, t)
    ensures Timed(cfg, t)
  {
    match m
    case Do(step) =>
      PlainTimed(cfg, s, step);
      SettledTimed(cfg, Next(cfg, s, step));
    case PulseExpiry(ch, w) => PulseExpiryTimed(cfg, s, ch, w, t);
    case LeaseExpiry(writes, scheduled, warned) =>
      var u :| Handled(cfg, s, LeaseFire, LeaseBody(writes), u) &&
               if LeaseWantsReboot(cfg, s.core, writes) then TailHandled(cfg, u, scheduled, warned, t) else t == u;
      LeaseExpiryTimed(cfg, s, writes, scheduled, warned, u, t);
    case WarningExpiry => WarningExpiryTimed(cfg, s, t);
    case RebootExpiry(back) => RebootExpiryTimed(cfg, s, back, t);
    case DogExpiry(fed, accepted) => DogExpiryTimed(cfg, s, fed, accepted, t);
    case HostExpiry(kind, writes, back) => HostExpiryTimed(cfg, s, kind, writes, back, t);
  }
}
