/**
 * The relay control plane of firmware/src/relay.c as functions on values: channel masks are sets of channel
 * numbers, a delayable work item is its pending deadline and the number of its handlers in flight, and every
 * answer of the hardware or the kernel (a GPIO write, a work submission) is a parameter. A publication is what is left
 * to do of it.
 */
module RelaySpec {
  import opened Common
  import H = HealthSpec
  import T = PulseTimes

  // ----- Kernel work items -----

  datatype Work = Work(due: Option<nat>, running: nat) {
    /** k_work_schedule: no effect on an item that is already pending. */
    function Schedule(at: nat): Work {
      if due.Some? then this else this.(due := Some(at))
    }

    /** k_work_reschedule. */
    function Reschedule(at: nat): Work {
      this.(due := Some(at))
    }

    /** k_work_cancel_delayable: drops the pending entry, not a handler in flight. */
    function Cancel(): Work {
      this.(due := None)
    }

    function Fire(): Work {
      Work(None, running + 1)
    }

    function Finish(): Work {
      if running == 0 then this else this.(running := running - 1)
    }

    predicate Live() {
      due.Some? || running > 0
    }

    /** k_work_delayable_remaining_get, in milliseconds. */
    function Remaining(now: nat): nat {
      if due.Some? && due.value > now then due.value - now else 0
    }
  }

  const IDLE: Work := Work(None, 0)

  // ----- Configuration -----

  datatype Policy = EnergizedOnly | NoTimeout | AlwaysOnOwner(rebootOnTimeout: bool)

  datatype Config = Config(policy: Policy, timeoutMs: nat, rebootDelayMs: nat, feedIntervalMs: nat) {
    predicate HasTimeout() {
      policy != NoTimeout
    }

    predicate RebootsOnTimeout() {
      policy == AlwaysOnOwner(true)
    }

    function RebootDelay(): nat {
      if RebootsOnTimeout() then rebootDelayMs else 0
    }
  }

  const CHANNELS: nat := 6
  const ALL: set<nat> := {0, 1, 2, 3, 4, 5}
  const PULSE_MIN_MS: nat := 10
  const PULSE_MAX_MS: nat := 60000
  const WARNING_MS: nat := 10000

  // ----- State -----

  /** The answer of one GPIO write; a failed write leaves the pin at some level. */
  datatype Write = Written | WriteFailed(level: bool)

  datatype Ret = Success | InvalidArgument | Busy | IoFailure

  datatype Relay = Relay(
    pins: seq<bool>, on: set<nat>, pulsing: set<nat>, durations: seq<nat>, pulseWork: seq<Work>,
    armed: bool, rebootScheduled: bool, warningScheduled: bool,
    lease: Work, warning: Work, reboot: Work)

  /**
   * What is left to do of a publication, once relay_lock was dropped: tell the health module the masks, copy the
   * health snapshot to the indicator (read, then shown), give the indicator the pulse timings.
   */
  datatype Job =
    | TellHealth(on: set<nat>, pulsing: set<nat>)
    | ReadHealth
    | ShowMask(pulsing: set<nat>)
    | ShowBars(pulsing: set<nat>, timings: T.Timings)

  /** What the indicator shows of pulses. */
  datatype Panel = Panel(pulsing: set<nat>, slots: T.Slots)

  /** A record of the newest report: the masks it was made of, and when. */
  datatype Report = Report(on: set<nat>, pulsing: set<nat>, at: nat)

  /** The publications under way, and what they lead to. */
  datatype Board = Board(pending: seq<seq<Job>>, newest: Report, panel: Panel)

  /** The relay module, the calls it and others have made into the health module, and its publications. */
  datatype Core = Core(relay: Relay, log: seq<H.Event>, board: Board)

  predicate Shaped(r: Relay) {
    && |r.pins| == CHANNELS && |r.durations| == CHANNELS && |r.pulseWork| == CHANNELS
    && r.on <= ALL && r.pulsing <= ALL
  }

  function Tell(c: Core, e: H.Event): Core {
    c.(log := c.log + [e])
  }

  predicate Sized(r: Relay) {
    |r.durations| == CHANNELS && |r.pulseWork| == CHANNELS
  }

  /** What is reported of the pulses in the mask; both fields are 32 bits wide. */
  function PulseTimings(r: Relay, mask: set<nat>, now: nat): T.Timings
    requires Sized(r)
  {
    seq(CHANNELS, i requires 0 <= i < CHANNELS =>
      if i !in mask then T.NOTHING
      else T.Timing(r.durations[i] % 0x1_0000_0000, r.pulseWork[i].Remaining(now) % 0x1_0000_0000))
  }

  lemma SameTimings(r: Relay, t: Relay, mask: set<nat>, now: nat)
    requires Sized(r) && Sized(t) && r.durations == t.durations && r.pulseWork == t.pulseWork
    ensures PulseTimings(r, mask, now) == PulseTimings(t, mask, now)
  {
  }

  // ----- Publication -----

  function Announced(b: Board, r: Relay, now: nat): Board
    requires Sized(r)
  {
    var job := ShowBars(r.pulsing, PulseTimings(r, r.pulsing, now));
    b.(pending := b.pending + [[TellHealth(r.on, r.pulsing), ReadHealth, job]], newest := Report(r.on, r.pulsing, now))
  }

  /** A report of the relay state, made under the lock and published after it. */
  function Announce(c: Core, now: nat): Core
    requires Sized(c.relay)
  {
    c.(board := Announced(c.board, c.relay, now))
  }

  /** Some module publishes the health snapshot and no more. */
  function Refresh(c: Core): Core {
    c.(board := c.board.(pending := c.board.pending + [[ReadHealth]]))
  }

  /** Publication i has these jobs left. */
  function Left(b: Board, i: nat, jobs: seq<Job>): Board
    requires i < |b.pending|
  {
    b.(pending := if jobs == [] then b.pending[..i] + b.pending[i + 1..] else b.pending[i := jobs])
  }

  /** The next job of publication i, with the indicator's clock. */
  function RunJob(c: Core, i: nat, at: int): Core
    requires i < |c.board.pending| && c.board.pending[i] != []
  {
    var rest, panel := c.board.pending[i][1..], c.board.panel;
    match c.board.pending[i][0]
    case TellHealth(on, pulsing) => Tell(c.(board := Left(c.board, i, rest)), H.SetRelayState(on, pulsing))
    case ReadHealth => c.(board := Left(c.board, i, [ShowMask(H.MasksAfter(c.log).1)] + rest))
    case ShowMask(pulsing) => c.(board := Left(c.board, i, rest).(panel := panel.(pulsing := pulsing)))
    case ShowBars(pulsing, timings) =>
      var slots := T.Stored(pulsing * panel.pulsing, Some(timings), at);
      c.(board := Left(c.board, i, rest).(panel := panel.(slots := slots)))
  }

  /** How many steps a publication still takes; a snapshot is read and then shown. */
  function Effort(jobs: seq<Job>): nat {
    if jobs == [] then 0 else (if jobs[0].ReadHealth? then 2 else 1) + Effort(jobs[1..])
  }

  function TotalEffort(pending: seq<seq<Job>>): nat {
    if pending == [] then 0 else Effort(pending[0]) + TotalEffort(pending[1..])
  }

  lemma EffortFalls(b: Board, jobs: seq<Job>)
    requires b.pending != [] && Effort(jobs) < Effort(b.pending[0])
    ensures TotalEffort(Left(b, 0, jobs).pending) < TotalEffort(b.pending)
  {
    assert b.pending[..0] + b.pending[1..] == b.pending[1..];
    assert b.pending[0 := jobs][1..] == b.pending[1..];
  }

  lemma ReadEffort(rest: seq<Job>, mask: set<nat>)
    ensures Effort([ShowMask(mask)] + rest) == 1 + Effort(rest)
  {
    assert ([ShowMask(mask)] + rest)[1..] == rest;
  }

  lemma JobEffort(c: Core, at: int)
    requires c.board.pending != [] && c.board.pending[0] != []
    ensures TotalEffort(RunJob(c, 0, at).board.pending) < TotalEffort(c.board.pending)
  {
    var rest := c.board.pending[0][1..];
    if c.board.pending[0][0].ReadHealth? {
      ReadEffort(rest, H.MasksAfter(c.log).1);
      EffortFalls(c.board, [ShowMask(H.MasksAfter(c.log).1)] + rest);
    } else {
      EffortFalls(c.board, rest);
    }
  }

  /** The publications under way, carried out one after the other. */
  function Settle(c: Core, at: int): Core
    decreases TotalEffort(c.board.pending)
  {
    if c.board.pending == [] || c.board.pending[0] == [] then c
    else JobEffort(c, at); Settle(RunJob(c, 0, at), at)
  }

  /** A command with its publication carried out. */
  function Settlement(result: (Core, Ret), at: int): (Core, Ret) {
    (Settle(result.0, at), result.1)
  }

  /** A report, published as a whole. */
  function Published(c: Core, on: set<nat>, pulsing: set<nat>, timings: Option<T.Timings>, at: int): Core {
    var slots := if timings.None? then c.board.panel.slots else T.Stored(pulsing, timings, at);
    Tell(c.(board := Board([], c.board.newest, Panel(pulsing, slots))), H.SetRelayState(on, pulsing))
  }

  lemma LastMasks(log: seq<H.Event>, on: set<nat>, pulsing: set<nat>)
    ensures H.MasksAfter(log + [H.SetRelayState(on, pulsing)]) == (on, pulsing)
  {
  }

  lemma OneJob(c: Core, job: Job, rest: seq<Job>, at: int)
    requires c.board.pending == [[job] + rest]
    ensures Settle(c, at) == Settle(RunJob(c, 0, at), at)
    ensures Left(c.board, 0, rest).pending == if rest == [] then [] else [rest]
    ensures c.board.pending[0][0] == job && c.board.pending[0][1..] == rest
  {
  }

  lemma {:induction false} ReportSettles(c: Core, on: set<nat>, pulsing: set<nat>, timings: T.Timings, at: int)
    requires c.board.pending == [[TellHealth(on, pulsing), ReadHealth, ShowBars(pulsing, timings)]]
    ensures Settle(c, at) == Published(c, on, pulsing, Some(timings), at)
  {
    var tell, bars := TellHealth(on, pulsing), ShowBars(pulsing, timings);
    assert [tell, ReadHealth, bars] == [tell] + [ReadHealth, bars];
    OneJob(c, tell, [ReadHealth, bars], at);
    LastMasks(c.log, on, pulsing);
    ReadSettles(RunJob(c, 0, at), pulsing, bars, at);
    assert pulsing * pulsing == pulsing;
  }

  /** What is left of a report after the health module was told. */
  lemma {:induction false} ReadSettles(c: Core, pulsing: set<nat>, bars: Job, at: int)
    requires c.board.pending == [[ReadHealth, bars]] && H.MasksAfter(c.log).1 == pulsing && bars.ShowBars?
    ensures Settle(c, at) == c.(board := Board([], c.board.newest,
              Panel(pulsing, T.Stored(bars.pulsing * pulsing, Some(bars.timings), at))))
  {
    assert [ReadHealth, bars] == [ReadHealth] + [bars];
    OneJob(c, ReadHealth, [bars], at);
    var c2 := RunJob(c, 0, at);
    assert c2.board.pending == [[ShowMask(pulsing)] + [bars]];
    OneJob(c2, ShowMask(pulsing), [bars], at);
    var c3 := RunJob(c2, 0, at);
    Neutral([bars]);
    OneJob(c3, bars, [], at);
  }

  lemma {:induction false} RefreshSettles(c: Core, at: int)
    requires c.board.pending == []
    ensures Settle(Refresh(c), at) ==
            c.(board := c.board.(panel := c.board.panel.(pulsing := H.MasksAfter(c.log).1)))
  {
    var c0, mask := Refresh(c), H.MasksAfter(c.log).1;
    Neutral([ReadHealth]);
    Neutral([ShowMask(mask)]);
    OneJob(c0, ReadHealth, [], at);
    var c1 := RunJob(c0, 0, at);
    assert c1.board.pending == [[ShowMask(mask)] + []];
    OneJob(c1, ShowMask(mask), [], at);
  }

  // ----- Helpers run under relay_lock -----

  function SetChannel(c: Core, ch: nat, on: bool, w: Write): Core
    requires Shaped(c.relay) && ch < CHANNELS
  {
    match w
    case Written =>
      c.(relay := c.relay.(pins := c.relay.pins[ch := on],
                           on := if on then c.relay.on + {ch} else c.relay.on - {ch}))
    case WriteFailed(level) =>
      Tell(c.(relay := c.relay.(pins := c.relay.pins[ch := level])), H.RecordRelayIoError)
  }

  /** The number of leading writes that succeed. */
  function Succeeding(writes: seq<Write>): (k: nat)
    ensures k <= |writes| && (k < |writes| ==> writes[k].WriteFailed?)
    ensures forall i :: 0 <= i < k ==> writes[i].Written?
  {
    SucceedingFrom(writes, 0)
  }

  function SucceedingFrom(writes: seq<Write>, from: nat): (k: nat)
    requires from <= |writes|
    ensures from <= k <= |writes| && (k < |writes| ==> writes[k].WriteFailed?)
    ensures forall i :: from <= i < k ==> writes[i].Written?
    decreases |writes| - from
  {
    if from == |writes| || writes[from].WriteFailed? then from else SucceedingFrom(writes, from + 1)
  }

  /** Pins after writing the mask channel by channel up to the first failure. */
  function DrivenPins(pins: seq<bool>, mask: set<nat>, writes: seq<Write>): seq<bool>
    requires |pins| == CHANNELS && |writes| == CHANNELS
  {
    var k := Succeeding(writes);
    seq(CHANNELS, i requires 0 <= i < CHANNELS =>
      if i < k then i in mask else if i == k then writes[k].level else pins[i])
  }

  function ApplyState(c: Core, mask: set<nat>, writes: seq<Write>): Core
    requires Shaped(c.relay) && |writes| == CHANNELS
  {
    var driven := c.(relay := c.relay.(pins := DrivenPins(c.relay.pins, mask, writes)));
    if Succeeding(writes) < CHANNELS then Tell(driven, H.RecordRelayIoError)
    else driven.(relay := driven.relay.(on := mask * ALL))
  }

  predicate ShouldArm(cfg: Config, r: Relay) {
    cfg.HasTimeout() && (cfg.policy.AlwaysOnOwner? || r.on != {} || r.pulsing != {})
  }

  function ScheduleLease(cfg: Config, r: Relay, now: nat): Relay {
    if ShouldArm(cfg, r) then r.(armed := true, lease := r.lease.Reschedule(now + cfg.timeoutMs))
    else r.(armed := false, lease := r.lease.Cancel())
  }

  function DisarmIfIdle(cfg: Config, r: Relay): Relay {
    if cfg.policy.EnergizedOnly? && r.on == {} && r.pulsing == {} then
      r.(armed := false, lease := r.lease.Cancel())
    else r
  }

  function CancelReboot(r: Relay): Relay {
    r.(rebootScheduled := false, warningScheduled := false,
       warning := r.warning.Cancel(), reboot := r.reboot.Cancel())
  }

  function CancelPulses(r: Relay, mask: set<nat>): Relay
    requires Shaped(r)
  {
    r.(pulsing := r.pulsing - mask,
       durations := seq(CHANNELS, i requires 0 <= i < CHANNELS => if i in mask then 0 else r.durations[i]),
       pulseWork := seq(CHANNELS, i requires 0 <= i < CHANNELS =>
         if i in mask then r.pulseWork[i].Cancel() else r.pulseWork[i]))
  }

  /** What every successful control command and the heartbeat do: drop a pending reboot, restart the lease. */
  function Renew(cfg: Config, c: Core, now: nat): Core {
    var was := c.relay.rebootScheduled;
    var told := Tell(c.(relay := CancelReboot(c.relay)), H.SetCommOwnerTimedOut(false));
    var cleared := if was then Tell(told, H.SetCommRebootPending(false)) else told;
    cleared.(relay := ScheduleLease(cfg, cleared.relay, now))
  }

  // ----- Commands -----

  function Set(cfg: Config, c: Core, now: nat, ch: nat, on: bool, w: Write): (Core, Ret)
    requires Shaped(c.relay)
  {
    if ch >= CHANNELS then (c, InvalidArgument)
    else
      var written := SetChannel(c.(relay := CancelPulses(c.relay, {ch})), ch, on, w);
      if w.WriteFailed? then (written, IoFailure)
      else (Announce(Renew(cfg, written, now), now), Success)
  }

  function SetAll(cfg: Config, c: Core, now: nat, mask: set<nat>, writes: seq<Write>): (Core, Ret)
    requires Shaped(c.relay) && |writes| == CHANNELS
  {
    if !(mask <= ALL) then (c, InvalidArgument)
    else
      var written := ApplyState(c.(relay := CancelPulses(c.relay, ALL)), mask, writes);
      if Succeeding(writes) < CHANNELS then (written, IoFailure)
      else (Announce(Renew(cfg, written, now), now), Success)
  }

  function StartPulse(r: Relay, ch: nat, duration: nat, at: nat): Relay
    requires Shaped(r) && ch < CHANNELS
  {
    r.(pulsing := r.pulsing + {ch}, durations := r.durations[ch := duration],
       pulseWork := r.pulseWork[ch := r.pulseWork[ch].Schedule(at)])
  }

  /** The scheduled flag is the kernel's answer; off is the answer of the write that undoes the channel. */
  function Pulse(cfg: Config, c: Core, now: nat, ch: nat, duration: nat, w: Write, scheduled: bool, off: Write)
    : (Core, Ret)
    requires Shaped(c.relay)
  {
    if ch >= CHANNELS || duration < PULSE_MIN_MS || duration > PULSE_MAX_MS then (c, InvalidArgument)
    else if ch in c.relay.pulsing then (c, Busy)
    else
      var written := SetChannel(c, ch, true, w);
      if w.WriteFailed? then (written, IoFailure)
      else if !scheduled then
        (SetChannel(written.(relay := written.relay.(durations := written.relay.durations[ch := 0])), ch, false, off),
         IoFailure)
      else
        var started := written.(relay := StartPulse(written.relay, ch, duration, now + duration));
        (Announce(Renew(cfg, started, now), now), Success)
  }

  function Heartbeat(cfg: Config, c: Core, now: nat): Core {
    Renew(cfg, c, now)
  }

  // ----- Work handlers -----

  function PulseExpired(cfg: Config, c: Core, now: nat, ch: nat, w: Write): Core
    requires Shaped(c.relay) && ch < CHANNELS
  {
    if ch !in c.relay.pulsing then c
    else
      var ended := c.(relay := c.relay.(pulsing := c.relay.pulsing - {ch},
                                        durations := c.relay.durations[ch := 0]));
      var written := SetChannel(ended, ch, false, w);
      if w.WriteFailed? then written
      else Announce(written.(relay := DisarmIfIdle(cfg, written.relay)), now)
  }

  /** What the policy does once an expired lease has switched everything off. */
  function AfterLease(cfg: Config, r: Relay, now: nat): Relay {
    match cfg.policy
    case AlwaysOnOwner(reboot) =>
      if reboot then r.(armed := false, rebootScheduled := true, warningScheduled := true)
      else ScheduleLease(cfg, r, now)
    case _ => r.(armed := false)
  }

  /** The part of the lease handler under relay_lock. */
  function LeaseExpired(cfg: Config, c: Core, now: nat, writes: seq<Write>): Core
    requires Shaped(c.relay) && |writes| == CHANNELS
  {
    if !c.relay.armed then c
    else
      var written := ApplyState(c.(relay := CancelPulses(c.relay, ALL)), {}, writes);
      if Succeeding(writes) < CHANNELS then written
      else
        var told := Tell(written, H.SetCommOwnerTimedOut(true));
        Announce(told.(relay := AfterLease(cfg, told.relay, now)), now)
  }

  /** Whether that part asks for the autonomous reboot. */
  predicate LeaseWantsReboot(cfg: Config, c: Core, writes: seq<Write>) {
    c.relay.armed && Succeeding(writes) == CHANNELS && cfg.RebootsOnTimeout()
  }

  /** After relay_lock was dropped: the reboot is submitted; if it is refused, its flags go, under the lock again. */
  function LeaseSubmit(cfg: Config, c: Core, now: nat, scheduled: bool): Core {
    if scheduled then c.(relay := c.relay.(reboot := c.relay.reboot.Schedule(now + cfg.rebootDelayMs)))
    else
      Tell(c.(relay := c.relay.(rebootScheduled := false, warningScheduled := false,
                                warning := c.relay.warning.Cancel())),
           H.RecordRebootFailed)
  }

  /** After the submission: its pending reason is shown, or the timer that will show it is. */
  function LeaseWarn(cfg: Config, c: Core, now: nat, warned: bool): Core {
    if cfg.RebootDelay() <= WARNING_MS then Tell(c, H.SetCommRebootPending(true))
    else if !warned then c
    else c.(relay := c.relay.(warning := c.relay.warning.Schedule(now + cfg.RebootDelay() - WARNING_MS)))
  }

  function WarningExpired(c: Core): Core {
    if !c.relay.warningScheduled || !c.relay.rebootScheduled then c
    else Tell(c.(relay := c.relay.(warningScheduled := false)), H.SetCommRebootPending(true))
  }

  function Blank(): Relay {
    Relay(seq(CHANNELS, _ => false), {}, {}, seq(CHANNELS, _ => 0), seq(CHANNELS, _ => IDLE),
          false, false, false, IDLE, IDLE, IDLE)
  }

  function Start(now: nat): Core {
    Core(Blank(), [], Board([], Report({}, {}, now), Panel({}, T.Stored({}, None, 0))))
  }

  /** relay_init on ready hardware, with the health model fresh; it publishes before any other thread runs. */
  function Init(cfg: Config, now: nat): Core {
    var told := Tell(Tell(Start(now), H.SetCommOwnerTimedOut(false)), H.SetCommRebootPending(false));
    var r := if cfg.policy.AlwaysOnOwner? then ScheduleLease(cfg, told.relay, now) else told.relay;
    Tell(told.(relay := r), H.SetRelayState(r.on, r.pulsing))
  }
}
