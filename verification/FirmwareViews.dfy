/** What whole handlers publish: the masks of the health module, and the masks and timings of the indicator. */
module FirmwareViews {
  import opened Common
  import opened RelaySpec
  import opened Firmware
  import opened FirmwareSafety
  import opened FirmwareBoard
  import opened FirmwareTiming
  import H = HealthSpec
  import T = PulseTimes

  /** The move makes a report: it switches something, and its writes succeed. */
  predicate MoveReports(cfg: Config, s: Sys, m: Move)
    requires WellFormed(s)
  {
    match m
    case Do(step) => Enabled(s, step) && Reports(cfg, s, step)
    case PulseExpiry(ch, w) => ch in s.core.relay.pulsing && w.Written?
    case LeaseExpiry(writes, _, _) => s.core.relay.armed && Succeeding(writes) == CHANNELS
    case HostExpiry(_, writes, _) => Succeeding(writes) == CHANNELS
    case _ => false
  }

  /** Everybody has been told what the newest report says. */
  predicate AllTold(c: Core) {
    && c.board.pending == []
    && Masks(c) == (c.board.newest.on, c.board.newest.pulsing)
    && c.board.panel.pulsing == c.board.newest.pulsing
  }

  /** The newest report is of this state. */
  predicate ReportedAll(c: Core, now: nat) {
    && Sized(c.relay)
    && c.board.newest == Report(c.relay.on, c.relay.pulsing, now)
    && c.board.panel.slots == T.Stored(c.relay.pulsing, Some(PulseTimings(c.relay, c.relay.pulsing, now)), now)
  }

  /** Nothing new has been reported. */
  predicate NoNews(c: Core, d: Core) {
    d.board.newest == c.board.newest && d.board.panel.slots == c.board.panel.slots
  }

  predicate BoardMoved(c: Core, d: Core, now: nat, reports: bool) {
    AllTold(d) && if reports then ReportedAll(d, now) else NoNews(c, d)
  }

  /** A report of d, carried out. */
  lemma SettledReport(c: Core, d: Core, now: nat)
    requires AllTold(c) && Reported(c, d, now)
    ensures var t := Settle(d, now);
            t.relay == d.relay && AllTold(t) && ReportedAll(t, now)
  {
    var timings := PulseTimings(d.relay, d.relay.pulsing, now);
    ReportSettles(d, d.relay.on, d.relay.pulsing, timings, now);
    LastMasks(d.log, d.relay.on, d.relay.pulsing);
  }

  /** A step, and the publication of its report, if it makes one. */
  lemma SettledStep(c: Core, d: Core, now: nat, reports: bool, failed: bool)
    requires AllTold(c) && ReportedOrNot(c, d, now, reports, failed)
    ensures Settle(d, now).relay == d.relay && BoardMoved(c, Settle(d, now), now, reports)
  {
    if reports {
      SettledReport(c, d, now);
    }
  }

  lemma DoBoard(cfg: Config, s: Sys, step: Step, t: Sys)
    requires Timed(cfg, s) && AllTold(s.core) && Moved(cfg, s, Do(step), t)
    ensures BoardMoved(s.core, t.core, s.now, MoveReports(cfg, s, Do(step)))
  {
    if step.Refreshing? {
      RefreshSettles(s.core, s.now);
    } else {
      var u := Next(cfg, s, step);
      StepBoard(cfg, s, step);
      if step.Tick? {
        assert t.core == s.core;
      } else {
        SettledStep(s.core, u.core, s.now, Reports(cfg, s, step), u.submitFailed);
      }
    }
  }

  lemma PulseExpiryBoard(cfg: Config, s: Sys, ch: nat, w: Write, t: Sys)
    requires Timed(cfg, s) && AllTold(s.core) && Handled(cfg, s, PulseFire(ch), PulseBody(ch, w), t)
    ensures BoardMoved(s.core, t.core, s.now, ch in s.core.relay.pulsing && w.Written?)
  {
    var u := NextTimer(cfg, s, PulseFire(ch));
    var v := NextTimer(cfg, u, PulseBody(ch, w));
    PulseRuns(cfg, s, ch, w, u, v);
    var fired := s.core.(relay := s.core.relay.(pulseWork := s.core.relay.pulseWork[ch := IDLE]));
    PulseExpiredBoard(cfg, fired, s.now, ch, w);
    SettledStep(fired, v.core, s.now, ch in s.core.relay.pulsing && w.Written?, false);
  }

  lemma LeaseBodyBoardMoved(cfg: Config, s: Sys, writes: seq<Write>, u: Sys)
    requires Timed(cfg, s) && AllTold(s.core) && Handled(cfg, s, LeaseFire, LeaseBody(writes), u)
    ensures BoardMoved(s.core, u.core, s.now, s.core.relay.armed && Succeeding(writes) == CHANNELS)
  {
    var fired := s.core.(relay := s.core.relay.(lease := IDLE));
    LeaseExpiredBoard(cfg, fired, s.now, writes);
    SettledStep(fired, LeaseExpired(cfg, fired, s.now, writes), s.now,
                s.core.relay.armed && Succeeding(writes) == CHANNELS, false);
  }

  /** Changes of the relay module that no report is of. */
  lemma BoardUnmoved(c: Core, d: Core, e: Core, now: nat, reports: bool)
    requires BoardMoved(c, d, now, reports) && Unreported(d, e)
    requires e.relay.on == d.relay.on && e.relay.pulsing == d.relay.pulsing
    requires e.relay.durations == d.relay.durations && e.relay.pulseWork == d.relay.pulseWork
    ensures BoardMoved(c, e, now, reports)
  {
    if reports {
      SameTimings(d.relay, e.relay, d.relay.pulsing, now);
    }
  }

  lemma TailBoard(cfg: Config, s: Core, u: Sys, scheduled: bool, warned: bool, t: Sys)
    requires BoardMoved(s, u.core, u.now, true) && TailHandled(cfg, u, scheduled, warned, t)
    ensures BoardMoved(s, t.core, u.now, true)
  {
    var v := NextTimer(cfg, u, LeaseSubmission(scheduled));
    LeaseSubmitEffect(cfg, u.core, u.now, scheduled);
    BoardUnmoved(s, u.core, v.core, u.now, true);
    if scheduled {
      LeaseWarnEffect(cfg, v.core, v.now, warned);
      BoardUnmoved(s, v.core, t.core, u.now, true);
    }
  }

  lemma ResetBoard(cfg: Config, c: Core, v: Sys, kind: ResetKind, back: bool, t: Sys)
    requires BoardMoved(c, v.core, v.now, true)
    requires Enabled(v, Host(HostReset(kind, back))) && t == NextHost(cfg, v, HostReset(kind, back))
    ensures BoardMoved(c, t.core, v.now, true)
  {
    Told(v.core, H.RecordRebootFailed);
    BoardUnmoved(c, v.core, t.core, v.now, true);
  }

  lemma HostOffBoard(cfg: Config, s: Sys, kind: ResetKind, writes: seq<Write>, u: Sys, v: Sys)
    requires Timed(cfg, s) && AllTold(s.core) && Enabled(s, Host(HostFire(kind)))
    requires u == NextHost(cfg, s, HostFire(kind))
    requires Enabled(u, Host(HostOff(kind, writes))) && v == NextHost(cfg, u, HostOff(kind, writes))
    ensures BoardMoved(s.core, Settled(v).core, s.now, Succeeding(writes) == CHANNELS) && v.now == s.now
  {
    HostOffFields(cfg, s, kind, writes, SetAll(cfg, s.core, s.now, {}, writes), u, v);
    OffBoard(cfg, s.core, s.now, writes);
    SettledStep(s.core, v.core, s.now, Succeeding(writes) == CHANNELS, false);
  }

  lemma HostBoardMoved(cfg: Config, s: Sys, kind: ResetKind, writes: seq<Write>, back: bool, t: Sys)
    requires Timed(cfg, s) && AllTold(s.core) && HostHandled(cfg, s, kind, writes, back, t)
    ensures BoardMoved(s.core, t.core, s.now, Succeeding(writes) == CHANNELS)
  {
    var u := NextHost(cfg, s, HostFire(kind));
    var v := NextHost(cfg, u, HostOff(kind, writes));
    HostOffBoard(cfg, s, kind, writes, u, v);
    if Succeeding(writes) == CHANNELS {
      ResetBoard(cfg, s.core, Settled(v), kind, back, t);
    }
  }

  lemma Unmoved(c: Core, d: Core, now: nat)
    requires AllTold(c) && Unreported(c, d)
    ensures BoardMoved(c, Settle(d, now), now, false)
  {
  }

  /** A handler that makes no report. */
  lemma QuietHandled(cfg: Config, s: Sys, fire: Handler, body: Handler, t: Sys)
    requires AllTold(s.core) && Handled(cfg, s, fire, body, t)
    requires (fire.WarningFire? && body.WarningBody?) || (fire.RebootFire? && body.RebootBody?)
    ensures BoardMoved(s.core, t.core, s.now, false)
  {
    var r := s.core.relay;
    if fire.WarningFire? {
      RebootBoard(s, r.(warning := r.warning.Fire().Finish(), warningScheduled := false));
    } else {
      RebootBoard(s, r.(reboot := r.reboot.Fire().Finish()));
    }
    Unmoved(s.core, NextTimer(cfg, NextTimer(cfg, s, fire), body).core, s.now);
  }

  lemma DogBoard(cfg: Config, s: Sys, fed: bool, accepted: bool, t: Sys)
    requires Timed(cfg, s) && AllTold(s.core) && Moved(cfg, s, DogExpiry(fed, accepted), t)
    ensures BoardMoved(s.core, t.core, s.now, false)
  {
    DogKeeps(cfg, s, DogSample);
    DogKeeps(cfg, NextDog(cfg, s, DogSample), DogBody(fed, accepted));
  }

  lemma MoveBoard(cfg: Config, s: Sys, m: Move, t: Sys)
    requires Timed(cfg, s) && AllTold(s.core) && Moved(cfg, s, m, t)
    ensures BoardMoved(s.core, t.core, s.now, MoveReports(cfg, s, m))
  {
    match m
    case Do(step) => DoBoard(cfg, s, step, t);
    case PulseExpiry(ch, w) => PulseExpiryBoard(cfg, s, ch, w, t);
    case LeaseExpiry(writes, scheduled, warned) =>
      var u :| Handled(cfg, s, LeaseFire, LeaseBody(writes), u) &&
               if LeaseWantsReboot(cfg, s.core, writes) then TailHandled(cfg, u, scheduled, warned, t) else t == u;
      LeaseBodyBoardMoved(cfg, s, writes, u);
      if LeaseWantsReboot(cfg, s.core, writes) {
        TailBoard(cfg, s.core, u, scheduled, warned, t);
      }
    case HostExpiry(kind, writes, back) => HostBoardMoved(cfg, s, kind, writes, back, t);
    case WarningExpiry => QuietHandled(cfg, s, WarningFire, WarningBody, t);
    case RebootExpiry(back) => QuietHandled(cfg, s, RebootFire, RebootBody(back), t);
    case DogExpiry(fed, accepted) => DogBoard(cfg, s, fed, accepted, t);
  }
}
