/**
 * Publications under every interleaving: which steps make a report, and when the masks that the health module holds
 * are those of the relay module.
 */
module FirmwareBoard {
  import opened Common
  import opened RelaySpec
  import opened Firmware
  import opened FirmwareOutcomes
  import opened FirmwareSafety
  import opened FirmwareReboot
  import H = HealthSpec

  // ----- Reports -----

  /** The step makes a report: a control command that succeeds, or a handler that switches off what it should. */
  predicate Reports(cfg: Config, s: Sys, step: Step)
    requires Enabled(s, step)
  {
    match step
    case Cmd(cmd) => !cmd.HeartbeatStep? && Succeeds(s.core.relay, cmd)
    case Timer(t) =>
      (match t
       case PulseBody(ch, w) => ch in s.core.relay.pulsing && w.Written?
       case LeaseBody(writes) => s.core.relay.armed && Succeeding(writes) == CHANNELS
       case _ => false)
    case Host(h) => h.HostOff? && Succeeding(h.writes) == CHANNELS
    case _ => false
  }

  /** The masks stayed as they were, or a failure is on record. */
  predicate MasksKept(c: Core, d: Core, failed: bool) {
    CoreIoFailed(d) || failed || (d.relay.on == c.relay.on && d.relay.pulsing == c.relay.pulsing)
  }

  predicate ReportedOrNot(c: Core, d: Core, now: nat, reports: bool, failed: bool) {
    if reports then Reported(c, d, now) else Unreported(c, d) && MasksKept(c, d, failed)
  }

  lemma PulseBoard(cfg: Config, c: Core, now: nat, ch: nat, duration: nat, w: Write, scheduled: bool, off: Write)
    requires Protected(cfg, c)
    ensures var (d, ret) := Pulse(cfg, c, now, ch, duration, w, scheduled, off);
            ReportedOrNot(c, d, now, ret == Success, ret == IoFailure && w.Written?)
  {
    if ch < CHANNELS && PULSE_MIN_MS <= duration <= PULSE_MAX_MS && ch !in c.relay.pulsing {
      PulseEffect(cfg, c, now, ch, duration, w, scheduled, off);
    }
  }

  lemma SetBoard(cfg: Config, c: Core, now: nat, ch: nat, on: bool, w: Write)
    requires Protected(cfg, c)
    ensures var (d, ret) := Set(cfg, c, now, ch, on, w);
            ReportedOrNot(c, d, now, ret == Success, false)
  {
    if ch < CHANNELS {
      SetEffect(cfg, c, now, ch, on, w);
    }
  }

  lemma SetAllBoard(cfg: Config, c: Core, now: nat, mask: set<nat>, writes: seq<Write>)
    requires Protected(cfg, c) && |writes| == CHANNELS
    ensures var (d, ret) := SetAll(cfg, c, now, mask, writes);
            && ReportedOrNot(c, d, now, ret == Success, false)
            && (mask <= ALL ==> (ret == Success <==> Succeeding(writes) == CHANNELS))
  {
    if mask <= ALL {
      SetAllEffect(cfg, c, now, mask, writes);
    }
  }

  lemma CommandBoard(cfg: Config, s: Sys, cmd: Command)
    requires Enabled(s, Cmd(cmd)) && Safe(cfg, s)
    ensures var t := NextCommand(cfg, s, cmd);
            ReportedOrNot(s.core, t.core, s.now, Reports(cfg, s, Cmd(cmd)), t.submitFailed)
  {
    match cmd
    case SetStep(ch, on, w) => SetBoard(cfg, s.core, s.now, ch, on, w);
    case SetAllStep(mask, writes) => SetAllBoard(cfg, s.core, s.now, mask, writes);
    case PulseStep(ch, duration, w, scheduled, off) =>
      PulseBoard(cfg, s.core, s.now, ch, duration, w, scheduled, off);
    case HeartbeatStep => RenewKeeps(cfg, s.core, s.now);
  }

  lemma PulseExpiredBoard(cfg: Config, c: Core, now: nat, ch: nat, w: Write)
    requires Shaped(c.relay) && PinsMatch(c) && ch < CHANNELS
    ensures ReportedOrNot(c, PulseExpired(cfg, c, now, ch, w), now, ch in c.relay.pulsing && w.Written?, false)
  {
    if ch in c.relay.pulsing {
      PulseExpiredEffect(cfg, c, now, ch, w);
    }
  }

  lemma PulseBodyBoard(cfg: Config, s: Sys, ch: nat, w: Write)
    requires Enabled(s, Timer(PulseBody(ch, w))) && Safe(cfg, s)
    ensures var u := NextTimer(cfg, s, PulseBody(ch, w));
            ReportedOrNot(s.core, u.core, s.now, Reports(cfg, s, Timer(PulseBody(ch, w))), false)
  {
    var r := s.core.relay;
    PulseExpiredBoard(cfg, s.core.(relay := r.(pulseWork := r.pulseWork[ch := r.pulseWork[ch].Finish()])), s.now,
                      ch, w);
  }

  lemma LeaseExpiredBoard(cfg: Config, c: Core, now: nat, writes: seq<Write>)
    requires Shaped(c.relay) && PinsMatch(c) && |writes| == CHANNELS
    ensures ReportedOrNot(c, LeaseExpired(cfg, c, now, writes), now,
                          c.relay.armed && Succeeding(writes) == CHANNELS, false)
  {
    if c.relay.armed {
      LeaseExpiredEffect(cfg, c, now, writes);
    }
  }

  lemma LeaseBodyBoard(cfg: Config, s: Sys, writes: seq<Write>)
    requires Enabled(s, Timer(LeaseBody(writes))) && Safe(cfg, s)
    ensures var u := NextTimer(cfg, s, LeaseBody(writes));
            ReportedOrNot(s.core, u.core, s.now, Reports(cfg, s, Timer(LeaseBody(writes))), false)
  {
    var r := s.core.relay;
    LeaseExpiredBoard(cfg, s.core.(relay := r.(lease := r.lease.Finish())), s.now, writes);
  }

  lemma RebootBoard(s: Sys, r: Relay)
    ensures Unreported(s.core, Tell(s.core.(relay := r), H.RecordRebootFailed))
    ensures Unreported(s.core, Tell(s.core.(relay := r), H.SetCommRebootPending(true)))
  {
    Told(s.core.(relay := r), H.RecordRebootFailed);
    Told(s.core.(relay := r), H.SetCommRebootPending(true));
  }

  /** The handler parts that make no report. */
  lemma QuietBoard(cfg: Config, s: Sys, t: Handler)
    requires Enabled(s, Timer(t)) && Safe(cfg, s)
    requires t.LeaseSubmission? || t.LeaseWarning? || t.WarningBody? || t.RebootBody?
    ensures ReportedOrNot(s.core, NextTimer(cfg, s, t).core, s.now, false, false)
  {
    var r := s.core.relay;
    match t
    case LeaseSubmission(scheduled) => LeaseSubmitEffect(cfg, s.core, s.now, scheduled);
    case LeaseWarning(warned) => LeaseWarnEffect(cfg, s.core, s.now, warned);
    case WarningBody => RebootBoard(s, r.(warning := r.warning.Finish(), warningScheduled := false));
    case RebootBody(_) => RebootBoard(s, r.(reboot := r.reboot.Finish()));
  }

  lemma TimerBoard(cfg: Config, s: Sys, t: Handler)
    requires Enabled(s, Timer(t)) && Safe(cfg, s)
    ensures var u := NextTimer(cfg, s, t);
            ReportedOrNot(s.core, u.core, s.now, Reports(cfg, s, Timer(t)), false)
  {
    match t
    case PulseBody(ch, w) => PulseBodyBoard(cfg, s, ch, w);
    case LeaseBody(writes) => LeaseBodyBoard(cfg, s, writes);
    case PulseFire(_) =>
    case LeaseFire =>
    case WarningFire =>
    case RebootFire =>
    case _ => QuietBoard(cfg, s, t);
  }

  lemma OffBoard(cfg: Config, c: Core, now: nat, writes: seq<Write>)
    requires Protected(cfg, c) && |writes| == CHANNELS
    ensures var (off, ret) := SetAll(cfg, c, now, {}, writes);
            var d := if ret == Success then off else Tell(off, H.RecordRebootFailed);
            ReportedOrNot(c, d, now, Succeeding(writes) == CHANNELS, false)
  {
    SetAllBoard(cfg, c, now, {}, writes);
    Told(SetAll(cfg, c, now, {}, writes).0, H.RecordRebootFailed);
  }

  lemma HostBoard(cfg: Config, s: Sys, h: HostAction)
    requires Enabled(s, Host(h)) && Safe(cfg, s)
    ensures ReportedOrNot(s.core, NextHost(cfg, s, h).core, s.now, Reports(cfg, s, Host(h)), false)
  {
    match h
    case HostRequest(_, _) =>
      Told(s.core, H.RecordRebootFailed);
      Told(s.core, H.SetHostRebootPending(true));
    case HostFire(_) =>
    case HostOff(_, writes) => OffBoard(cfg, s.core, s.now, writes);
    case HostReset(_, _) => Told(s.core, H.RecordRebootFailed);
  }

  /** Every other step than a publication's reports the new masks, or leaves them, but for failures. */
  lemma StepBoard(cfg: Config, s: Sys, step: Step)
    requires Enabled(s, step) && Safe(cfg, s) && !step.Publish? && !step.Refreshing?
    ensures var t := Next(cfg, s, step);
            ReportedOrNot(s.core, t.core, s.now, Reports(cfg, s, step), t.submitFailed)
  {
    match step
    case Cmd(cmd) => CommandBoard(cfg, s, cmd);
    case Timer(t) => TimerBoard(cfg, s, t);
    case Dog(d) => DogKeeps(cfg, s, d);
    case Host(h) => HostBoard(cfg, s, h);
    case Note(e) => Told(s.core, e);
    case Tick(_) =>
  }

  // ----- The newest report -----

  /** Without a failure on record, the newest report has the masks of the relay module. */
  predicate NewestAgrees(s: Sys) {
    var r, newest := s.core.relay, s.core.board.newest;
    !IoFailed(s) && !s.submitFailed ==> newest.on == r.on && newest.pulsing == r.pulsing
  }

  lemma StepNewest(cfg: Config, s: Sys, step: Step)
    requires Enabled(s, step) && Safe(cfg, s) && NewestAgrees(s)
    ensures NewestAgrees(Next(cfg, s, step))
  {
    StepKeeps(cfg, s, step);
    match step
    case Publish(i) => JobEffect(s.core, i, s.now);
    case Refreshing =>
    case _ => StepBoard(cfg, s, step);
  }

  lemma {:induction false} RunNewest(cfg: Config, s: Sys, steps: seq<Step>, t: Sys)
    requires Run(cfg, s, steps, t) && Safe(cfg, s) && NewestAgrees(s)
    ensures NewestAgrees(t)
    decreases |steps|
  {
    if steps != [] {
      StepNewest(cfg, s, steps[0]);
      StepKeeps(cfg, s, steps[0]);
      RunNewest(cfg, Next(cfg, s, steps[0]), steps[1..], t);
    }
  }

  /** Until something fails, health agrees with the relays exactly if it was told last what the newest report says. */
  lemma MasksAgreeIff(cfg: Config, now: nat, steps: seq<Step>, s: Sys)
    requires Run(cfg, Boot(cfg, now), steps, s) && !IoFailed(s) && !s.submitFailed
    ensures Masks(s.core) == (s.core.relay.on, s.core.relay.pulsing) <==>
            Masks(s.core) == (s.core.board.newest.on, s.core.board.newest.pulsing)
  {
    BootIsSafe(cfg, now);
    RunNewest(cfg, Boot(cfg, now), steps, s);
  }

  // ----- Publications in order -----

  predicate Untold(jobs: seq<Job>) {
    jobs != [] && jobs[0].TellHealth?
  }

  /** The reports that the health module has not been told yet, oldest first. */
  function UntoldOf(pending: seq<seq<Job>>): (untold: seq<seq<Job>>)
    ensures forall i :: 0 <= i < |untold| ==> Untold(untold[i])
  {
    if pending == [] then [] else (if Untold(pending[0]) then [pending[0]] else []) + UntoldOf(pending[1..])
  }

  /** The masks that health will hold once it was told everything, if the newest report is told last. */
  function Coming(c: Core): (set<nat>, set<nat>) {
    var untold := UntoldOf(c.board.pending);
    if untold == [] then Masks(c)
    else var told := untold[|untold| - 1][0]; (told.on, told.pulsing)
  }

  /** A report is told only when no older one is waiting to be. */
  predicate InOrder(s: Sys, step: Step)
    requires Enabled(s, step)
  {
    step.Publish? && Untold(s.core.board.pending[step.i]) ==>
      forall j :: 0 <= j < step.i ==> !Untold(s.core.board.pending[j])
  }

  ghost predicate OrderedRun(cfg: Config, s: Sys, steps: seq<Step>)
    decreases |steps|
  {
    steps == [] || (Enabled(s, steps[0]) && InOrder(s, steps[0]) && OrderedRun(cfg, Next(cfg, s, steps[0]), steps[1..]))
  }

  lemma {:induction false} UntoldConcat(a: seq<seq<Job>>, b: seq<seq<Job>>)
    ensures UntoldOf(a + b) == UntoldOf(a) + UntoldOf(b)
  {
    if a == [] {
      Neutral(b);
      Neutral(UntoldOf(b));
    } else {
      DropInFront(a, b);
      UntoldConcat(a[1..], b);
      Associate(if Untold(a[0]) then [a[0]] else [], UntoldOf(a[1..]), UntoldOf(b));
    }
  }

  lemma UntoldOne(jobs: seq<Job>)
    ensures UntoldOf([jobs]) == if Untold(jobs) then [jobs] else []
  {
    assert [jobs][1..] == [];
  }

  lemma {:induction false} NoneUntold(pending: seq<seq<Job>>)
    requires forall j :: 0 <= j < |pending| ==> !Untold(pending[j])
    ensures UntoldOf(pending) == []
  {
    if pending != [] {
      NoneUntold(pending[1..]);
    }
  }

  /** What is left of publication i is no report to be told: so one less is left, if it was one. */
  lemma UntoldLeft(b: Board, i: nat, jobs: seq<Job>)
    requires i < |b.pending| && !Untold(jobs)
    ensures UntoldOf(Left(b, i, jobs).pending) == UntoldOf(b.pending[..i]) + UntoldOf(b.pending[i + 1..])
    ensures UntoldOf(b.pending) ==
            UntoldOf(b.pending[..i]) + (UntoldOf([b.pending[i]]) + UntoldOf(b.pending[i + 1..]))
  {
    var front, back := b.pending[..i], b.pending[i + 1..];
    assert b.pending == front + ([b.pending[i]] + back);
    UntoldConcat(front, [b.pending[i]] + back);
    UntoldConcat([b.pending[i]], back);
    UntoldConcat(front, back);
    if jobs != [] {
      assert Left(b, i, jobs).pending == front + ([jobs] + back);
      UntoldConcat(front, [jobs] + back);
      UntoldConcat([jobs], back);
      UntoldOne(jobs);
      Neutral(UntoldOf(back));
    }
  }

  /** Of a publication only the first job may tell the health module the masks. */
  predicate TellsFirst(pending: seq<seq<Job>>) {
    forall i :: 0 <= i < |pending| ==>
      pending[i] != [] && forall k :: 1 <= k < |pending[i]| ==> !pending[i][k].TellHealth?
  }

  function JobsLeft(c: Core, i: nat): seq<Job>
    requires i < |c.board.pending| && c.board.pending[i] != []
  {
    var rest := c.board.pending[i][1..];
    if c.board.pending[i][0].ReadHealth? then [ShowMask(H.MasksAfter(c.log).1)] + rest else rest
  }

  lemma JobTellsFirst(c: Core, i: nat, at: int)
    requires TellsFirst(c.board.pending) && i < |c.board.pending|
    ensures RunJob(c, i, at).board.pending == Left(c.board, i, JobsLeft(c, i)).pending
    ensures TellsFirst(RunJob(c, i, at).board.pending) && !Untold(JobsLeft(c, i))
  {
    var jobs := JobsLeft(c, i);
    assert forall k :: 0 <= k < |jobs| ==> !jobs[k].TellHealth?;
  }

  /** Once the newest report is told last, health will hold its masks. */
  predicate ComingNewest(c: Core) {
    TellsFirst(c.board.pending) && Coming(c) == (c.board.newest.on, c.board.newest.pulsing)
  }

  lemma ReportedComing(c: Core, d: Core, now: nat)
    requires TellsFirst(c.board.pending) && Reported(c, d, now)
    ensures ComingNewest(d)
  {
    var jobs := d.board.pending[|c.board.pending|];
    UntoldConcat(c.board.pending, [jobs]);
    UntoldOne(jobs);
  }

  lemma RefreshComing(c: Core)
    requires ComingNewest(c)
    ensures ComingNewest(Refresh(c))
  {
    UntoldConcat(c.board.pending, [[ReadHealth]]);
    UntoldOne([ReadHealth]);
    Neutral(UntoldOf(c.board.pending));
  }

  lemma QuietJobComing(c: Core, i: nat, at: int)
    requires ComingNewest(c) && i < |c.board.pending| && !Untold(c.board.pending[i])
    ensures ComingNewest(RunJob(c, i, at))
  {
    JobEffect(c, i, at);
    JobTellsFirst(c, i, at);
    UntoldLeft(c.board, i, JobsLeft(c, i));
    UntoldOne(c.board.pending[i]);
    Neutral(UntoldOf(c.board.pending[i + 1..]));
  }

  lemma ToldComing(c: Core, i: nat, at: int)
    requires ComingNewest(c) && i < |c.board.pending| && Untold(c.board.pending[i])
    requires forall j :: 0 <= j < i ==> !Untold(c.board.pending[j])
    ensures ComingNewest(RunJob(c, i, at))
  {
    var front, back := c.board.pending[..i], c.board.pending[i + 1..];
    JobEffect(c, i, at);
    JobTellsFirst(c, i, at);
    UntoldLeft(c.board, i, JobsLeft(c, i));
    UntoldOne(c.board.pending[i]);
    NoneUntold(front);
    Neutral(UntoldOf(back));
    Neutral([c.board.pending[i]] + UntoldOf(back));
  }

  lemma StepComing(cfg: Config, s: Sys, step: Step)
    requires Enabled(s, step) && Safe(cfg, s) && ComingNewest(s.core) && InOrder(s, step)
    ensures ComingNewest(Next(cfg, s, step).core)
  {
    if step.Publish? {
      if Untold(s.core.board.pending[step.i]) {
        ToldComing(s.core, step.i, s.now);
      } else {
        QuietJobComing(s.core, step.i, s.now);
      }
    } else if step.Refreshing? {
      RefreshComing(s.core);
    } else {
      StepBoard(cfg, s, step);
      if Reports(cfg, s, step) {
        ReportedComing(s.core, Next(cfg, s, step).core, s.now);
      }
    }
  }

  lemma {:induction false} RunComing(cfg: Config, s: Sys, steps: seq<Step>, t: Sys)
    requires Run(cfg, s, steps, t) && OrderedRun(cfg, s, steps) && Safe(cfg, s) && ComingNewest(s.core)
    ensures ComingNewest(t.core)
    decreases |steps|
  {
    if steps != [] {
      StepComing(cfg, s, steps[0]);
      StepKeeps(cfg, s, steps[0]);
      RunComing(cfg, Next(cfg, s, steps[0]), steps[1..], t);
    }
  }

  lemma BootComing(cfg: Config, now: nat)
    ensures ComingNewest(Boot(cfg, now).core)
  {
    BootMasks(cfg, now);
  }

  lemma BootMasks(cfg: Config, now: nat)
    ensures Masks(Boot(cfg, now).core) == ({}, {})
  {
    var c := Start(now);
    var c2 := Tell(Tell(c, H.SetCommOwnerTimedOut(false)), H.SetCommRebootPending(false));
    LastMasks(c2.log, {}, {});
  }

  /**
   * Where reports are told to the health module in the order in which they were made, it agrees with the relays, until
   * something fails, as soon as no report is waiting to be told; whatever else runs in between.
   */
  lemma AgreeInOrder(cfg: Config, now: nat, steps: seq<Step>, s: Sys)
    requires Run(cfg, Boot(cfg, now), steps, s) && OrderedRun(cfg, Boot(cfg, now), steps)
    requires !IoFailed(s) && !s.submitFailed && UntoldOf(s.core.board.pending) == []
    ensures Masks(s.core) == (s.core.relay.on, s.core.relay.pulsing)
  {
    BootIsSafe(cfg, now);
    BootComing(cfg, now);
    RunComing(cfg, Boot(cfg, now), steps, s);
    RunNewest(cfg, Boot(cfg, now), steps, s);
  }

  // ----- A run in which they are told in the wrong order -----

  lemma UpToOneReport() returns (steps: seq<Step>, s: Sys)
    ensures Run(RACE_CONFIG, Boot(RACE_CONFIG, 0), steps, s) && Safe(RACE_CONFIG, s) && s.mode == Running
    ensures |s.core.board.pending| == 1 && s.core.relay.on == {0} && !IoFailed(s) && !s.submitFailed
    ensures TellsFirst(s.core.board.pending) && s.core.board.pending[0][0] == TellHealth({0}, {})
    ensures s.core.relay.pulsing == {}
  {
    var boot := Boot(RACE_CONFIG, 0);
    BootIsSafe(RACE_CONFIG, 0);
    assert Run(RACE_CONFIG, boot, [], boot);
    steps, s := ThenSet(RACE_CONFIG, boot, [], boot, 0, true);
  }

  /** Two commands have run, and neither report is published yet. */
  lemma UpToTwoReports() returns (steps: seq<Step>, s: Sys)
    ensures Run(RACE_CONFIG, Boot(RACE_CONFIG, 0), steps, s) && Safe(RACE_CONFIG, s) && s.mode == Running
    ensures |s.core.board.pending| == 2 && s.core.relay.on == {} && !IoFailed(s) && !s.submitFailed
    ensures TellsFirst(s.core.board.pending)
    ensures s.core.board.pending[0][0] == TellHealth({0}, {}) && s.core.board.pending[1][0].TellHealth?
  {
    var s1;
    steps, s1 := UpToOneReport();
    steps, s := ThenSet(RACE_CONFIG, Boot(RACE_CONFIG, 0), steps, s1, 0, false);
  }

  /** The later report is told first: health holds a relay for on that is off, with nothing left to tell. */
  lemma ToldInWrongOrder() returns (steps: seq<Step>, t: Sys)
    ensures Run(RACE_CONFIG, Boot(RACE_CONFIG, 0), steps, t) && !IoFailed(t) && !t.submitFailed
    ensures Masks(t.core) == ({0}, {}) && t.core.relay.on == {} && UntoldOf(t.core.board.pending) == []
  {
    var s;
    steps, s := UpToTwoReports();
    var boot := Boot(RACE_CONFIG, 0);
    RunThen(RACE_CONFIG, boot, steps, s, Publish(1));
    var s1 := Next(RACE_CONFIG, s, Publish(1));
    JobEffect(s.core, 1, s.now);
    JobTellsFirst(s.core, 1, s.now);
    RunThen(RACE_CONFIG, boot, steps + [Publish(1)], s1, Publish(0));
    JobEffect(s1.core, 0, s1.now);
    JobTellsFirst(s1.core, 0, s1.now);
    steps := steps + [Publish(1)] + [Publish(0)];
    t := Next(RACE_CONFIG, s1, Publish(0));
    NoneUntold(t.core.board.pending);
  }
}
