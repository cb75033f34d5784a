/**
 * firmware/src/relay.c as it runs: static masks, flags and per-channel work items, changed in place by loops over
 * the six channels. Every method is proved against the function of the same name in RelaySpec.
 */
module RelayControl {
  import opened Common
  import opened Masks
  import H = HealthSpec
  import HealthModel
  import T = PulseTimes
  import Spec = RelaySpec

  type Work = Spec.Work

  class Control {
    const cfg: Spec.Config
    const health: HealthModel.Model
    const indicator: T.Indicator
    const pins: array<bool>
    const durationMs: array<nat>
    const pulseWork: array<Work>
    var relayStateMask: bv8
    var relayPulseMask: bv8
    var commLossArmed: bool
    var rebootScheduled: bool
    var warningScheduled: bool
    var commLossWork: Work
    var warningWork: Work
    var rebootWork: Work
    /** A record of the newest report. */
    ghost var newest: Spec.Report

    ghost predicate Valid()
      reads this
    {
      && pins.Length == 6 && durationMs.Length == 6 && pulseWork.Length == 6
      && Channels(relayStateMask) <= Spec.ALL && Channels(relayPulseMask) <= Spec.ALL
      && indicator.Valid()
    }

    ghost function Parts(): set<object> {
      {this, health, pins, durationMs, pulseWork, indicator, indicator.durations, indicator.ends}
    }

    ghost function RelayView(): Spec.Relay
      reads this, pins, durationMs, pulseWork
    {
      Spec.Relay(pins[..], Channels(relayStateMask), Channels(relayPulseMask), durationMs[..], pulseWork[..],
                 commLossArmed, rebootScheduled, warningScheduled, commLossWork, warningWork, rebootWork)
    }

    /** Between two calls no publication is under way. */
    ghost function View(): Spec.Core
      requires Valid()
      reads this, Parts()
    {
      Spec.Core(RelayView(), health.log,
                Spec.Board([], newest, Spec.Panel(Channels(indicator.pulseMask), indicator.View())))
    }

    /** The static initial values, before relay_init; the pins still have whatever level the board gives them. */
    constructor (cfg: Spec.Config)
      ensures Valid() && fresh(Parts()) && this.cfg == cfg && Unstarted() && health.Valid()
    {
      this.cfg := cfg;
      pins := new bool[6];
      durationMs := new nat[6](_ => 0);
      pulseWork := new Work[6](_ => Spec.IDLE);
      commLossWork, warningWork, rebootWork := Spec.IDLE, Spec.IDLE, Spec.IDLE;
      relayStateMask, relayPulseMask := 0, 0;
      health := new HealthModel.Model();
      indicator := new T.Indicator();
      ZeroMask(0);
    }

    ghost predicate Unstarted()
      reads this, Parts()
    {
      && Valid() && health.log == [] && indicator.pulseMask == 0
      && indicator.View() == T.Stored({}, None, 0)
      && (forall i :: 0 <= i < 6 ==> durationMs[i] == 0 && pulseWork[i] == Spec.IDLE)
      && commLossWork == Spec.IDLE && warningWork == Spec.IDLE && rebootWork == Spec.IDLE
    }

    /** Every pin is made an inactive output, up to the first one that is not ready or refuses. */
    method ConfigurePins(configurable: seq<bool>) returns (ok: bool)
      requires pins.Length == 6 && |configurable| == 6
      modifies pins
      ensures ok == (forall i :: 0 <= i < 6 ==> configurable[i])
      ensures forall i :: 0 <= i < 6 ==>
                pins[i] == if forall j :: 0 <= j <= i ==> configurable[j] then false else old(pins[i])
    {
      for i := 0 to 6
        invariant forall j :: 0 <= j < i ==> configurable[j]
        invariant forall j :: 0 <= j < 6 ==> pins[j] == if j < i then false else old(pins[j])
      {
        if !configurable[i] {
          return false;
        }
        pins[i] := false;
      }
      return true;
    }

    /** relay_init; the parameter says of each pin whether its device is ready and accepts its configuration. */
    method RelayInit(now: nat, configurable: seq<bool>) returns (ok: bool)
      requires Unstarted() && |configurable| == 6
      modifies this, pins, health, indicator, indicator.durations, indicator.ends
      ensures Valid() && ok == (forall i :: 0 <= i < 6 ==> configurable[i])
      ensures ok ==> View() == Spec.Init(cfg, now)
      ensures !ok ==> View() == Spec.Tell(old(View()).(relay := old(RelayView()).(pins := pins[..])),
                                          H.RecordRelayGpioInitFailed)
      ensures forall i :: 0 <= i < 6 ==>
                pins[i] == if forall j :: 0 <= j <= i ==> configurable[j] then false else old(pins[i])
    {
      ok := ConfigurePins(configurable);
      if !ok {
        health.RecordRelayGpioInitFailed();
        return;
      }
      StartUp(now);
    }

    /** The rest of relay_init, with every pin low. */
    method StartUp(now: nat)
      requires Unstarted() && forall i :: 0 <= i < 6 ==> !pins[i]
      modifies this, health, indicator, indicator.durations, indicator.ends
      ensures Valid() && View() == Spec.Init(cfg, now)
    {
      relayStateMask, relayPulseMask := 0, 0;
      commLossArmed, rebootScheduled, warningScheduled := false, false, false;
      commLossWork, warningWork, rebootWork := commLossWork.Cancel(), warningWork.Cancel(), rebootWork.Cancel();
      newest := Spec.Report({}, {}, now);
      ZeroMask(0);
      assert pins[..] == Spec.Blank().pins;
      assert durationMs[..] == Spec.Blank().durations;
      assert pulseWork[..] == Spec.Blank().pulseWork;
      StartLease(now);
    }

    method StartLease(now: nat)
      requires Valid()
      modifies this`commLossArmed, this`commLossWork, health, indicator, indicator.durations, indicator.ends
      ensures Valid()
      ensures var c := Spec.Tell(Spec.Tell(old(View()), H.SetCommOwnerTimedOut(false)),
                                 H.SetCommRebootPending(false));
              var r := if cfg.policy.AlwaysOnOwner? then Spec.ScheduleLease(cfg, c.relay, now) else c.relay;
              View() == Spec.Published(c.(relay := r), r.on, r.pulsing, None, 0)
    {
      health.SetCommOwnerTimedOut(false);
      health.SetCommRebootPending(false);
      if cfg.policy.AlwaysOnOwner? {
        ScheduleLease(now);
      }
      PublishIndicatorState(relayStateMask, relayPulseMask, None, 0);
    }

    /** Run without relay_lock, on masks that may be stale by now; without timings the bars stay as they are. */
    method PublishIndicatorState(stateMask: bv8, pulseMask: bv8, timing: Option<T.Timings>, at: int)
      requires Valid()
      modifies health, indicator, indicator.durations, indicator.ends
      ensures Valid()
      ensures View() == Spec.Published(old(View()), Channels(stateMask), Channels(pulseMask), timing, at)
    {
      health.SetRelayState(stateMask, pulseMask);
      indicator.pulseMask := health.pulseMask;
      if timing.Some? {
        indicator.SetRelayTimedState(at, pulseMask, timing);
      }
    }

    method SnapshotPulseTimingLocked(pulseMask: bv8, now: nat) returns (timing: T.Timings)
      requires Valid()
      ensures timing == Spec.PulseTimings(RelayView(), Channels(pulseMask), now)
    {
      var report := [];
      for i := 0 to 6
        invariant |report| == i
        invariant forall j :: 0 <= j < i ==>
                    report[j] == Spec.PulseTimings(RelayView(), Channels(pulseMask), now)[j]
      {
        Member(pulseMask, i);
        if !TestBit(pulseMask, i) {
          report := report + [T.NOTHING];
        } else {
          report := report + [T.Timing(durationMs[i] % 0x1_0000_0000,
                                       pulseWork[i].Remaining(now) % 0x1_0000_0000)];
        }
      }
      timing := report;
    }

    method SetChannelLocked(channel: nat, on: bool, w: Spec.Write) returns (ok: bool)
      requires Valid() && channel < 6
      modifies this`relayStateMask, pins, health
      ensures Valid() && ok == w.Written?
      ensures View() == Spec.SetChannel(old(View()), channel, on, w)
    {
      var nextState := relayStateMask;
      if on {
        nextState := With(nextState, channel);
      } else {
        nextState := Without(nextState, channel);
      }
      match w {
        case Written =>
          pins[channel] := on;
          relayStateMask := nextState;
          ok := true;
        case WriteFailed(level) =>
          pins[channel] := level;
          health.RecordRelayIoError();
          ok := false;
      }
    }

    /** The pins driven one by one up to the first failure; `on` is the set of the mask. */
    method DrivePins(stateMask: bv8, writes: seq<Spec.Write>, ghost on: set<nat>) returns (ok: bool)
      requires pins.Length == 6 && |writes| == 6
      requires forall i :: 0 <= i < 6 ==> (TestBit(stateMask, i) <==> i in on)
      modifies pins
      ensures ok == (Spec.Succeeding(writes) == 6)
      ensures pins[..] == Spec.DrivenPins(old(pins[..]), on, writes)
    {
      var i := 0;
      ghost var before, k := pins[..], Spec.Succeeding(writes);
      while i < 6
        invariant 0 <= i <= 6 && i <= k
        invariant forall j :: 0 <= j < 6 ==> pins[j] == if j < i then j in on else before[j]
      {
        match writes[i] {
          case Written =>
            pins[i] := TestBit(stateMask, i);
          case WriteFailed(level) =>
            pins[i] := level;
            assert k == i;
            assert pins[..] == Spec.DrivenPins(before, on, writes);
            return false;
        }
        i := i + 1;
      }
      assert pins[..] == Spec.DrivenPins(before, on, writes);
      return true;
    }

    method ApplyStateLocked(stateMask: bv8, writes: seq<Spec.Write>) returns (ok: bool)
      requires Valid() && |writes| == 6
      modifies this`relayStateMask, pins, health
      ensures Valid() && ok == (Spec.Succeeding(writes) == 6)
      ensures View() == Spec.ApplyState(old(View()), Channels(stateMask), writes)
    {
      Members(stateMask);
      ok := DrivePins(stateMask, writes, Channels(stateMask));
      if !ok {
        health.RecordRelayIoError();
        return;
      }
      AllChannels();
      relayStateMask := And(stateMask, ALL_CHANNELS);
    }

    method ScheduleLease(now: nat)
      requires Valid()
      modifies this`commLossArmed, this`commLossWork
      ensures Valid() && View() == old(View()).(relay := Spec.ScheduleLease(cfg, old(RelayView()), now))
    {
      ZeroMask(relayStateMask);
      ZeroMask(relayPulseMask);
      if cfg.policy.NoTimeout? || !(cfg.policy.AlwaysOnOwner? || relayStateMask != 0 || relayPulseMask != 0) {
        commLossArmed := false;
        commLossWork := commLossWork.Cancel();
        return;
      }
      commLossArmed := true;
      commLossWork := commLossWork.Reschedule(now + cfg.timeoutMs);
    }

    method DisarmIfIdle()
      requires Valid()
      modifies this`commLossArmed, this`commLossWork
      ensures Valid() && View() == old(View()).(relay := Spec.DisarmIfIdle(cfg, old(RelayView())))
    {
      ZeroMask(relayStateMask);
      ZeroMask(relayPulseMask);
      if cfg.policy.EnergizedOnly? && relayStateMask == 0 && relayPulseMask == 0 {
        commLossArmed := false;
        commLossWork := commLossWork.Cancel();
      }
    }

    method CancelReboot() returns (wasScheduled: bool)
      requires Valid()
      modifies this`rebootScheduled, this`warningScheduled, this`warningWork, this`rebootWork
      ensures Valid() && wasScheduled == old(rebootScheduled)
      ensures View() == old(View()).(relay := Spec.CancelReboot(old(RelayView())))
    {
      wasScheduled := rebootScheduled;
      rebootScheduled := false;
      warningScheduled := false;
      warningWork := warningWork.Cancel();
      rebootWork := rebootWork.Cancel();
    }

    /** The timers and durations of the pulses in the mask; `chosen` is its set, r the state before. */
    method CancelTimers(mask: bv8, ghost chosen: set<nat>, ghost r: Spec.Relay)
      requires durationMs.Length == 6 && pulseWork.Length == 6 && Spec.Shaped(r)
      requires durationMs[..] == r.durations && pulseWork[..] == r.pulseWork
      requires forall i :: 0 <= i < 6 ==> (TestBit(mask, i) <==> i in chosen)
      modifies durationMs, pulseWork
      ensures durationMs[..] == Spec.CancelPulses(r, chosen).durations
      ensures pulseWork[..] == Spec.CancelPulses(r, chosen).pulseWork
    {
      for i := 0 to 6
        invariant forall j :: 0 <= j < 6 ==> durationMs[j] == if j < i && j in chosen then 0 else r.durations[j]
        invariant forall j :: 0 <= j < 6 ==>
                    pulseWork[j] == if j < i && j in chosen then r.pulseWork[j].Cancel() else r.pulseWork[j]
      {
        if TestBit(mask, i) {
          pulseWork[i] := pulseWork[i].Cancel();
          durationMs[i] := 0;
        }
      }
    }

    method CancelPulsesLocked(mask: bv8)
      requires Valid()
      modifies this`relayPulseMask, durationMs, pulseWork
      ensures Valid()
      ensures View() == old(View()).(relay := Spec.CancelPulses(old(RelayView()), Channels(mask)))
    {
      Members(mask);
      CancelTimers(mask, Channels(mask), RelayView());
      DropMask(mask);
    }

    method DropMask(mask: bv8)
      requires Valid()
      modifies this`relayPulseMask
      ensures Valid() && View() == old(View()).(relay := old(RelayView()).(
                                     pulsing := old(RelayView()).pulsing - Channels(mask)))
    {
      relayPulseMask := AndNot(relayPulseMask, mask);
    }

    /** The locked tail shared by the three control commands and the heartbeat. */
    method RenewLocked(now: nat)
      requires Valid()
      modifies this, health
      ensures Valid() && View() == Spec.Renew(cfg, old(View()), now)
      ensures relayStateMask == old(relayStateMask) && relayPulseMask == old(relayPulseMask)
      ensures old(health.Valid()) ==> health.Valid()
    {
      var rebootCanceled := CancelReboot();
      health.SetCommOwnerTimedOut(false);
      if rebootCanceled {
        health.SetCommRebootPending(false);
      }
      ScheduleLease(now);
    }

    /** A report of the state under the lock, published after it. */
    method PublishReport(now: nat, timing: T.Timings, at: int)
      requires Valid() && timing == Spec.PulseTimings(RelayView(), Channels(relayPulseMask), now)
      modifies `newest, health, indicator, indicator.durations, indicator.ends
      ensures Valid() && View() == Spec.Settle(Spec.Announce(old(View()), now), at)
    {
      ghost var c := View();
      newest := Spec.Report(Channels(relayStateMask), Channels(relayPulseMask), now);
      PublishIndicatorState(relayStateMask, relayPulseMask, Some(timing), at);
      Spec.ReportSettles(Spec.Announce(c, now), Channels(relayStateMask), Channels(relayPulseMask), timing, at);
    }

    /** The end of a control command that succeeded. */
    method RenewAndPublish(now: nat, at: int)
      requires Valid()
      modifies this, health, indicator, indicator.durations, indicator.ends
      ensures Valid() && Spec.Sized(Spec.Renew(cfg, old(View()), now).relay)
      ensures View() == Spec.Settle(Spec.Announce(Spec.Renew(cfg, old(View()), now), now), at)
    {
      var timing := SnapshotPulseTimingLocked(relayPulseMask, now);
      ghost var r := RelayView();
      RenewLocked(now);
      Spec.SameTimings(r, RelayView(), Channels(relayPulseMask), now);
      PublishReport(now, timing, at);
    }

    method RelaySet(now: nat, channel: nat, on: bool, w: Spec.Write, at: int) returns (ret: Spec.Ret)
      requires Valid()
      modifies Parts()
      ensures Valid() && (View(), ret) == Spec.Settlement(Spec.Set(cfg, old(View()), now, channel, on, w), at)
    {
      if channel >= 6 {
        return Spec.InvalidArgument;
      }
      OneBit(channel, channel);
      CancelPulsesLocked(Bit(channel));
      var ok := SetChannelLocked(channel, on, w);
      if !ok {
        return Spec.IoFailure;
      }
      RenewAndPublish(now, at);
      return Spec.Success;
    }

    method RelaySetAll(now: nat, stateMask: bv8, writes: seq<Spec.Write>, at: int) returns (ret: Spec.Ret)
      requires Valid() && |writes| == 6
      modifies Parts()
      ensures Valid()
      ensures (View(), ret) == Spec.Settlement(Spec.SetAll(cfg, old(View()), now, Channels(stateMask), writes), at)
    {
      AllChannels();
      ZeroMask(AndNot(stateMask, ALL_CHANNELS));
      if AndNot(stateMask, ALL_CHANNELS) != 0 {
        return Spec.InvalidArgument;
      }
      CancelPulsesLocked(ALL_CHANNELS);
      var ok := ApplyStateLocked(stateMask, writes);
      if !ok {
        return Spec.IoFailure;
      }
      RenewAndPublish(now, at);
      return Spec.Success;
    }

    method MarkPulse(channel: nat, duration: nat)
      requires Valid() && channel < 6
      modifies this`relayPulseMask, durationMs
      ensures Valid()
      ensures var r := old(RelayView());
              View() == old(View()).(relay := r.(pulsing := r.pulsing + {channel},
                                                 durations := r.durations[channel := duration]))
    {
      ghost var durations := durationMs[..];
      relayPulseMask := With(relayPulseMask, channel);
      durationMs[channel] := duration;
      assert durationMs[..] == durations[channel := duration];
    }

    method ClearPulse(channel: nat)
      requires Valid() && channel < 6
      modifies this`relayPulseMask, durationMs
      ensures Valid()
      ensures var r := old(RelayView());
              View() == old(View()).(relay := r.(pulsing := r.pulsing - {channel},
                                                 durations := r.durations[channel := 0]))
    {
      ghost var durations := durationMs[..];
      relayPulseMask := Without(relayPulseMask, channel);
      durationMs[channel] := 0;
      assert durationMs[..] == durations[channel := 0];
    }

    /** The pulse of a channel just switched on; a refused timer switches it off again. */
    method SubmitPulseLocked(now: nat, channel: nat, durationMs: nat, scheduled: bool, off: Spec.Write)
      returns (ok: bool)
      requires Valid() && channel < 6 && channel !in Channels(relayPulseMask)
      modifies this`relayStateMask, this`relayPulseMask, pins, this.durationMs, pulseWork, health
      ensures Valid() && ok == scheduled
      ensures var r := old(RelayView());
              View() == if scheduled then
                          old(View()).(relay := Spec.StartPulse(r, channel, durationMs, now + durationMs))
                        else Spec.SetChannel(old(View()).(relay := r.(durations := r.durations[channel := 0])),
                                             channel, false, off)
    {
      ghost var r := RelayView();
      MarkPulse(channel, durationMs);
      if !scheduled {
        ClearPulse(channel);
        assert RelayView().pulsing == r.pulsing;
        assert RelayView().durations == r.durations[channel := 0];
        var _ := SetChannelLocked(channel, false, off);
        return false;
      }
      pulseWork[channel] := pulseWork[channel].Schedule(now + durationMs);
      return true;
    }

    method RelayPulse(now: nat, channel: nat, durationMs: nat, w: Spec.Write, scheduled: bool, off: Spec.Write,
                      at: int) returns (ret: Spec.Ret)
      requires Valid()
      modifies Parts()
      ensures Valid()
      ensures var result := Spec.Pulse(cfg, old(View()), now, channel, durationMs, w, scheduled, off);
              (View(), ret) == Spec.Settlement(result, at)
    {
      if channel >= 6 {
        return Spec.InvalidArgument;
      }
      if durationMs < Spec.PULSE_MIN_MS || durationMs > Spec.PULSE_MAX_MS {
        return Spec.InvalidArgument;
      }
      Member(relayPulseMask, channel);
      if TestBit(relayPulseMask, channel) {
        return Spec.Busy;
      }
      var ok := SetChannelLocked(channel, true, w);
      if !ok {
        return Spec.IoFailure;
      }
      ok := SubmitPulseLocked(now, channel, durationMs, scheduled, off);
      if !ok {
        return Spec.IoFailure;
      }
      RenewAndPublish(now, at);
      return Spec.Success;
    }

    method RelayCommLossRenew(now: nat, at: int)
      requires Valid() && health.Valid()
      modifies Parts()
      ensures Valid() && health.Valid()
      ensures View() == Spec.Settle(Spec.Refresh(Spec.Heartbeat(cfg, old(View()), now)), at)
    {
      RenewLocked(now);
      PublishHealthSnapshot(at);
    }

    method PublishHealthSnapshot(ghost at: int)
      requires Valid() && health.Valid()
      modifies indicator
      ensures Valid() && View() == Spec.Settle(Spec.Refresh(old(View())), at)
    {
      H.FactsRefine(health.log);
      Spec.RefreshSettles(View(), at);
      indicator.pulseMask := health.pulseMask;
    }

    method DisarmAndPublish(now: nat, at: int)
      requires Valid()
      modifies this`commLossArmed, this`commLossWork, this`newest, health
      modifies indicator, indicator.durations, indicator.ends
      ensures Valid()
      ensures var d := old(View()).(relay := Spec.DisarmIfIdle(cfg, old(RelayView())));
              Spec.Sized(d.relay) && View() == Spec.Settle(Spec.Announce(d, now), at)
    {
      var timing := SnapshotPulseTimingLocked(relayPulseMask, now);
      ghost var r := RelayView();
      DisarmIfIdle();
      Spec.SameTimings(r, RelayView(), Channels(relayPulseMask), now);
      PublishReport(now, timing, at);
    }

    method PulseExpired(channel: nat, w: Spec.Write, now: nat, at: int)
      requires Valid() && channel < 6
      modifies Parts()
      ensures Valid() && View() == Spec.Settle(Spec.PulseExpired(cfg, old(View()), now, channel, w), at)
    {
      Member(relayPulseMask, channel);
      if !TestBit(relayPulseMask, channel) {
        return;
      }
      ClearPulse(channel);
      var ok := SetChannelLocked(channel, false, w);
      if ok {
        DisarmAndPublish(now, at);
      }
    }

    /** comm_loss_expired up to and with its publication; the result says whether to go on to LeaseReboot. */
    method CommLossExpired(now: nat, writes: seq<Spec.Write>, at: int) returns (scheduleReboot: bool)
      requires Valid() && |writes| == 6
      modifies Parts()
      ensures Valid() && View() == Spec.Settle(Spec.LeaseExpired(cfg, old(View()), now, writes), at)
      ensures scheduleReboot == Spec.LeaseWantsReboot(cfg, old(View()), writes)
    {
      if !commLossArmed {
        return false;
      }
      scheduleReboot := false;
      AllChannels();
      ZeroMask(0);
      CancelPulsesLocked(ALL_CHANNELS);
      var ok := ApplyStateLocked(0, writes);
      if ok {
        scheduleReboot := RelaysTimedOut(now, at);
      }
    }

    /** The part of comm_loss_expired that follows a successful off-all. */
    method RelaysTimedOut(now: nat, at: int) returns (scheduleReboot: bool)
      requires Valid()
      modifies this, health, indicator, indicator.durations, indicator.ends
      ensures Valid() && scheduleReboot == cfg.RebootsOnTimeout()
      ensures var told := Spec.Tell(old(View()), H.SetCommOwnerTimedOut(true));
              var d := told.(relay := Spec.AfterLease(cfg, told.relay, now));
              Spec.Sized(d.relay) && View() == Spec.Settle(Spec.Announce(d, now), at)
    {
      var timing := SnapshotPulseTimingLocked(relayPulseMask, now);
      ghost var r := RelayView();
      health.SetCommOwnerTimedOut(true);
      scheduleReboot := FollowPolicy(now);
      Spec.SameTimings(r, RelayView(), Channels(relayPulseMask), now);
      PublishReport(now, timing, at);
    }

    method FollowPolicy(now: nat) returns (scheduleReboot: bool)
      requires Valid()
      modifies this`commLossArmed, this`commLossWork, this`rebootScheduled, this`warningScheduled
      ensures Valid() && scheduleReboot == cfg.RebootsOnTimeout()
      ensures View() == old(View()).(relay := Spec.AfterLease(cfg, old(RelayView()), now))
      ensures relayStateMask == old(relayStateMask) && relayPulseMask == old(relayPulseMask)
    {
      scheduleReboot := false;
      if cfg.policy.AlwaysOnOwner? {
        if cfg.policy.rebootOnTimeout {
          PlanReboot();
          scheduleReboot := true;
        } else {
          ScheduleLease(now);
        }
      } else {
        commLossArmed := false;
      }
    }

    method PlanReboot()
      requires Valid()
      modifies this`commLossArmed, this`rebootScheduled, this`warningScheduled
      ensures Valid()
      ensures View() == old(View()).(relay := old(RelayView()).(armed := false, rebootScheduled := true,
                                                                warningScheduled := true))
    {
      commLossArmed := false;
      rebootScheduled := true;
      warningScheduled := true;
    }

    method ScheduleRebootPendingIndication(now: nat, warned: bool)
      requires Valid()
      modifies this`warningWork, health
      ensures Valid() && View() == Spec.LeaseWarn(cfg, old(View()), now, warned)
    {
      var delay := cfg.RebootDelay();
      if delay <= Spec.WARNING_MS {
        health.SetCommRebootPending(true);
        return;
      }
      if warned {
        warningWork := warningWork.Schedule(now + delay - Spec.WARNING_MS);
      }
    }

    /** The submission of the reboot, without relay_lock; a refused one is withdrawn under it. */
    method SubmitReboot(now: nat, scheduled: bool)
      requires Valid()
      modifies this`rebootScheduled, this`warningScheduled, this`warningWork, this`rebootWork, health
      ensures Valid() && View() == Spec.LeaseSubmit(cfg, old(View()), now, scheduled)
    {
      if scheduled {
        rebootWork := rebootWork.Schedule(now + cfg.rebootDelayMs);
        return;
      }
      WithdrawReboot();
    }

    method WithdrawReboot()
      requires Valid()
      modifies this`rebootScheduled, this`warningScheduled, this`warningWork, health
      ensures Valid()
      ensures var r := old(RelayView());
              View() == Spec.Tell(old(View()).(relay := r.(rebootScheduled := false, warningScheduled := false,
                                                           warning := r.warning.Cancel())),
                                  H.RecordRebootFailed)
    {
      rebootScheduled := false;
      warningScheduled := false;
      warningWork := warningWork.Cancel();
      health.RecordRebootFailed();
    }

    /** The rest of comm_loss_expired, run after relay_lock was dropped. */
    method LeaseReboot(now: nat, scheduled: bool, warned: bool)
      requires Valid()
      modifies Parts()
      ensures Valid()
      ensures var submitted := Spec.LeaseSubmit(cfg, old(View()), now, scheduled);
              View() == if scheduled then Spec.LeaseWarn(cfg, submitted, now, warned) else submitted
    {
      SubmitReboot(now, scheduled);
      if scheduled {
        ScheduleRebootPendingIndication(now, warned);
      }
    }

    method WarningExpired()
      requires Valid()
      modifies Parts()
      ensures Valid() && View() == Spec.WarningExpired(old(View()))
    {
      if !warningScheduled || !rebootScheduled {
        return;
      }
      warningScheduled := false;
      health.SetCommRebootPending(true);
    }
  }
}
