/** The main results about the timed firmware, over every behaviour made of whole moves. */
module FirmwareTheorems {
  import opened Common
  import opened RelaySpec
  import opened Firmware
  import opened FirmwareOutcomes
  import opened FirmwareSafety
  import opened FirmwareWatchdog
  import opened FirmwareReboot
  import opened FirmwareReset
  import opened FirmwareBoard
  import opened FirmwareTiming
  import opened FirmwareViews
  import H = HealthSpec

  lemma BootTimed(cfg: Config, now: nat)
    ensures Timed(cfg, Boot(cfg, now))
  {
    BootIsSafe(cfg, now);
    var c := Start(now);
    Told(c, H.SetCommOwnerTimedOut(false));
    var c1 := Tell(c, H.SetCommOwnerTimedOut(false));
    Told(c1, H.SetCommRebootPending(false));
    var c2 := Tell(c1, H.SetCommRebootPending(false));
    var d := c2.(relay := if cfg.policy.AlwaysOnOwner? then ScheduleLease(cfg, c2.relay, now) else c2.relay);
    Told(d, H.SetRelayState(d.relay.on, d.relay.pulsing));
    assert Boot(cfg, now).core == Tell(d, H.SetRelayState(d.relay.on, d.relay.pulsing));
  }

  lemma TimedNext(cfg: Config, now: nat, moves: seq<Move>, states: seq<Sys>, k: nat)
    requires Behaviour(cfg, now, moves, states) && k < |moves| && Timed(cfg, states[k])
    ensures Timed(cfg, states[k + 1])
  {
    assert MovedAt(cfg, moves, states, k);
    MoveTimed(cfg, states[k], moves[k], states[k + 1]);
  }

  lemma {:induction false} BehaviourTimed(cfg: Config, now: nat, moves: seq<Move>, states: seq<Sys>, i: nat)
    requires Behaviour(cfg, now, moves, states) && i < |states|
    ensures Timed(cfg, states[i])
  {
    if i == 0 {
      BootTimed(cfg, now);
      assert states[0] == Boot(cfg, now);
    } else {
      BehaviourTimed(cfg, now, moves, states, i - 1);
      TimedNext(cfg, now, moves, states, i - 1);
    }
  }

  /**
   * Lease safety: under either timeout policy, a relay that is on means the lease is armed and its timer is pending
   * exactly one timeout after the last successful command or heartbeat, and that moment has not passed; unless a
   * write failure is latched.
   */
  lemma LeaseSafety(cfg: Config, now: nat, moves: seq<Move>, states: seq<Sys>, i: nat)
    requires Behaviour(cfg, now, moves, states) && i < |states|
    requires cfg.policy.EnergizedOnly? || cfg.policy.AlwaysOnOwner?
    requires states[i].core.relay.on != {} && !IoFailed(states[i])
    ensures var s := states[i];
            && s.core.relay.armed && s.core.relay.lease.due == Some(s.lastRenew + cfg.timeoutMs)
            && s.lastRenew <= s.now <= s.lastRenew + cfg.timeoutMs
  {
    BehaviourTimed(cfg, now, moves, states, i);
  }

  /** A pulse bit, a pending timer and a recorded duration are one fact, and the timer is due at start + duration. */
  lemma PulseExactness(cfg: Config, now: nat, moves: seq<Move>, states: seq<Sys>, i: nat, ch: nat)
    requires Behaviour(cfg, now, moves, states) && i < |states| && ch < CHANNELS
    ensures var s := states[i];
            && WellFormed(s)
            && (ch in s.core.relay.pulsing <==> s.core.relay.pulseWork[ch].due.Some?)
            && (ch in s.core.relay.pulsing <==> s.core.relay.durations[ch] != 0)
            && (ch in s.core.relay.pulsing ==>
                 && s.core.relay.pulseWork[ch].due == Some(s.starts[ch] + s.core.relay.durations[ch])
                 && s.now <= s.starts[ch] + s.core.relay.durations[ch])
            && s.core.relay.pulsing <= s.core.relay.on
  {
    BehaviourTimed(cfg, now, moves, states, i);
  }

  lemma ToldNext(cfg: Config, now: nat, moves: seq<Move>, states: seq<Sys>, k: nat)
    requires Behaviour(cfg, now, moves, states) && k < |moves| && AllTold(states[k].core)
    ensures AllTold(states[k + 1].core) && WellFormed(states[k])
    ensures BoardMoved(states[k].core, states[k + 1].core, states[k].now, MoveReports(cfg, states[k], moves[k]))
  {
    BehaviourTimed(cfg, now, moves, states, k);
    assert MovedAt(cfg, moves, states, k);
    MoveBoard(cfg, states[k], moves[k], states[k + 1]);
  }

  /** Between two moves everybody has been told what the newest report says. */
  lemma {:induction false} BehaviourTold(cfg: Config, now: nat, moves: seq<Move>, states: seq<Sys>, i: nat)
    requires Behaviour(cfg, now, moves, states) && i < |states|
    ensures AllTold(states[i].core)
  {
    if i == 0 {
      BootMasks(cfg, now);
    } else {
      BehaviourTold(cfg, now, moves, states, i - 1);
      ToldNext(cfg, now, moves, states, i - 1);
    }
  }

  lemma BehaviourNewest(cfg: Config, now: nat, moves: seq<Move>, states: seq<Sys>, i: nat)
    requires Behaviour(cfg, now, moves, states) && i < |states|
    ensures NewestAgrees(states[i])
  {
    var steps := BehaviourIsRun(cfg, now, moves, states, 0, i);
    BootIsSafe(cfg, now);
    RunNewest(cfg, states[0], steps, states[i]);
  }

  /**
   * Until a write or a pulse submission fails, the pins, the relay module, the health module and the indicator agree.
   */
  lemma ThreeViews(cfg: Config, now: nat, moves: seq<Move>, states: seq<Sys>, i: nat)
    requires Behaviour(cfg, now, moves, states) && i < |states| && !IoFailed(states[i])
    ensures var s := states[i];
            && WellFormed(s)
            && (forall ch :: 0 <= ch < CHANNELS ==> s.core.relay.pins[ch] == (ch in s.core.relay.on))
            && (!s.submitFailed ==>
                 && H.Run(s.core.log).relays == s.core.relay.on && H.Run(s.core.log).pulses == s.core.relay.pulsing
                 && s.core.board.panel.pulsing == s.core.relay.pulsing)
  {
    BehaviourTimed(cfg, now, moves, states, i);
    BehaviourTold(cfg, now, moves, states, i);
    BehaviourNewest(cfg, now, moves, states, i);
    H.FactsRefine(states[i].core.log);
  }

  /**
   * Reboot safety: the pending reason is shown only while the reboot is scheduled; a pending or executed autonomous
   * reboot finds no pulse running and, unless a write failure is latched, every relay off and every pin low.
   */
  lemma RebootSafety(cfg: Config, now: nat, moves: seq<Move>, states: seq<Sys>, i: nat)
    requires Behaviour(cfg, now, moves, states) && i < |states|
    ensures var s := states[i];
            && (RebootPending(s.core) ==> s.core.relay.rebootScheduled)
            && (s.core.relay.reboot.due.Some? || s.mode == Reset(Autonomous) ==>
                 && s.core.relay.rebootScheduled && s.core.relay.pulsing == {}
                 && (IoFailed(s) || (s.core.relay.on == {} && PinsLow(s))))
  {
    BehaviourTimed(cfg, now, moves, states, i);
  }

  // ----- A whole move is a run of steps -----

  /** The publications under way can be carried out step by step. */
  lemma {:induction false} SettleIsRun(cfg: Config, s: Sys) returns (steps: seq<Step>)
    requires WellFormed(s) && TellsFirst(s.core.board.pending) && (s.core.board.pending == [] || s.mode == Running)
    ensures Run(cfg, s, steps, Settled(s)) && NoLeaseBody(steps)
    decreases TotalEffort(s.core.board.pending)
  {
    steps := [];
    if s.core.board.pending != [] {
      JobEffort(s.core, s.now);
      JobEffect(s.core, 0, s.now);
      JobTellsFirst(s.core, 0, s.now);
      var u := Next(cfg, s, Publish(0));
      var more := SettleIsRun(cfg, u);
      StepThenRun(cfg, s, Publish(0), u, more, Settled(s));
      steps := [Publish(0)] + more;
    }
  }

  /** Nothing is being published, and the lock's facts hold; all that the step by step view of a move needs. */
  predicate Calm(cfg: Config, s: Sys) {
    Safe(cfg, s) && s.core.board.pending == []
  }

  lemma TimedIsCalm(cfg: Config, s: Sys)
    requires Timed(cfg, s)
    ensures Calm(cfg, s)
  {
  }

  predicate Bodily(fire: Handler, body: Handler) {
    match fire
    case PulseFire(_) => body.PulseBody?
    case LeaseFire => body.LeaseBody?
    case WarningFire => body.WarningBody?
    case RebootFire => body.RebootBody?
    case _ => false
  }

  lemma HandledIsRun(cfg: Config, s: Sys, fire: Handler, body: Handler, t: Sys) returns (steps: seq<Step>)
    requires Calm(cfg, s) && Handled(cfg, s, fire, body, t) && Bodily(fire, body)
    ensures Run(cfg, s, steps, t) && (!body.LeaseBody? ==> NoLeaseBody(steps))
  {
    var u := NextTimer(cfg, s, fire);
    var v := NextTimer(cfg, u, body);
    FireBoard(cfg, s, fire, body, u, v);
    TwoSteps(cfg, s, Timer(fire), Timer(body));
    var more := SettleIsRun(cfg, v);
    RunAppend(cfg, s, [Timer(fire), Timer(body)], v, more, t);
    steps := [Timer(fire), Timer(body)] + more;
  }

  lemma FireOnly(cfg: Config, s: Sys, fire: Handler, u: Sys)
    requires Calm(cfg, s) && Enabled(s, Timer(fire)) && u == NextTimer(cfg, s, fire)
    requires fire.PulseFire? || fire.LeaseFire? || fire.WarningFire? || fire.RebootFire?
    ensures Calm(cfg, u)
  {
    TimerKeeps(cfg, s, fire);
  }

  /** After a handler there is at most its report to publish, and none if the board was reset. */
  lemma FireBoard(cfg: Config, s: Sys, fire: Handler, body: Handler, u: Sys, v: Sys)
    requires Calm(cfg, s) && Enabled(s, Timer(fire)) && u == NextTimer(cfg, s, fire) && Bodily(fire, body)
    requires Enabled(u, Timer(body)) && v == NextTimer(cfg, u, body)
    ensures WellFormed(v) && TellsFirst(v.core.board.pending) && (v.core.board.pending == [] || v.mode == Running)
  {
    FireOnly(cfg, s, fire, u);
    BodyBoard(cfg, u, body, v);
  }

  lemma BodyBoard(cfg: Config, u: Sys, body: Handler, v: Sys)
    requires Calm(cfg, u) && Enabled(u, Timer(body)) && v == NextTimer(cfg, u, body)
    ensures WellFormed(v) && TellsFirst(v.core.board.pending) && (v.core.board.pending == [] || v.mode == Running)
  {
    TimerBoard(cfg, u, body);
    TimerKeeps(cfg, u, body);
  }

  lemma DoIsRun(cfg: Config, s: Sys, step: Step, t: Sys) returns (steps: seq<Step>)
    requires Calm(cfg, s) && Plain(step) && Enabled(s, step) && t == Settled(Next(cfg, s, step))
    ensures Run(cfg, s, steps, t) && NoLeaseBody(steps)
  {
    var u := Next(cfg, s, step);
    StepTells(cfg, s, step);
    StepKeeps(cfg, s, step);
    PlainMode(cfg, s, step);
    OneStep(cfg, s, step);
    var more := SettleIsRun(cfg, u);
    RunAppend(cfg, s, [step], u, more, t);
    steps := [step] + more;
  }

  lemma TailIsRun(cfg: Config, s: Sys, steps: seq<Step>, u: Sys, scheduled: bool, warned: bool, t: Sys)
    returns (all: seq<Step>)
    requires Run(cfg, s, steps, u) && TailHandled(cfg, u, scheduled, warned, t)
    ensures Run(cfg, s, all, t)
  {
    var submit, warn := Timer(LeaseSubmission(scheduled)), Timer(LeaseWarning(warned));
    RunThen(cfg, s, steps, u, submit);
    all := steps + [submit];
    if scheduled {
      RunThen(cfg, s, all, Next(cfg, u, submit), warn);
      all := all + [warn];
    }
  }

  lemma LeaseExpiryIsRun(cfg: Config, s: Sys, writes: seq<Write>, scheduled: bool, warned: bool, t: Sys)
    returns (steps: seq<Step>)
    requires Calm(cfg, s) && Moved(cfg, s, LeaseExpiry(writes, scheduled, warned), t)
    ensures Run(cfg, s, steps, t)
  {
    var u :| Handled(cfg, s, LeaseFire, LeaseBody(writes), u) &&
             if LeaseWantsReboot(cfg, s.core, writes) then TailHandled(cfg, u, scheduled, warned, t) else t == u;
    steps := HandledIsRun(cfg, s, LeaseFire, LeaseBody(writes), u);
    if LeaseWantsReboot(cfg, s.core, writes) {
      steps := TailIsRun(cfg, s, steps, u, scheduled, warned, t);
    }
  }

  /** A host handler up to its published off-all. */
  lemma OffIsRun(cfg: Config, s: Sys, kind: ResetKind, writes: seq<Write>, u: Sys, v: Sys)
    returns (steps: seq<Step>)
    requires Calm(cfg, s) && Enabled(s, Host(HostFire(kind))) && u == NextHost(cfg, s, HostFire(kind))
    requires Enabled(u, Host(HostOff(kind, writes))) && v == NextHost(cfg, u, HostOff(kind, writes))
    ensures Run(cfg, s, steps, Settled(v)) && NoLeaseBody(steps)
  {
    OffTellsFirst(cfg, s, kind, writes, u, v);
    TwoSteps(cfg, s, Host(HostFire(kind)), Host(HostOff(kind, writes)));
    var more := SettleIsRun(cfg, v);
    RunAppend(cfg, s, [Host(HostFire(kind)), Host(HostOff(kind, writes))], v, more, Settled(v));
    steps := [Host(HostFire(kind)), Host(HostOff(kind, writes))] + more;
  }

  lemma OffTellsFirst(cfg: Config, s: Sys, kind: ResetKind, writes: seq<Write>, u: Sys, v: Sys)
    requires Calm(cfg, s) && Enabled(s, Host(HostFire(kind))) && u == NextHost(cfg, s, HostFire(kind))
    requires Enabled(u, Host(HostOff(kind, writes))) && v == NextHost(cfg, u, HostOff(kind, writes))
    ensures WellFormed(v) && TellsFirst(v.core.board.pending) && v.mode == Running
  {
    HostKeeps(cfg, s, HostFire(kind));
    StepTells(cfg, u, Host(HostOff(kind, writes)));
    HostKeeps(cfg, u, HostOff(kind, writes));
    OffMode(cfg, u, kind, writes);
  }

  lemma OffMode(cfg: Config, u: Sys, kind: ResetKind, writes: seq<Write>)
    requires Enabled(u, Host(HostOff(kind, writes)))
    ensures NextHost(cfg, u, HostOff(kind, writes)).mode == Running
  {
  }

  lemma HostExpiryIsRun(cfg: Config, s: Sys, kind: ResetKind, writes: seq<Write>, back: bool, t: Sys)
    returns (steps: seq<Step>)
    requires Calm(cfg, s) && HostHandled(cfg, s, kind, writes, back, t)
    ensures Run(cfg, s, steps, t) && NoLeaseBody(steps)
  {
    var u := NextHost(cfg, s, HostFire(kind));
    var v := NextHost(cfg, u, HostOff(kind, writes));
    steps := OffIsRun(cfg, s, kind, writes, u, v);
    if Succeeding(writes) == CHANNELS {
      steps := ResetIsRun(cfg, s, steps, Settled(v), kind, back, t);
    }
  }

  lemma ResetIsRun(cfg: Config, s: Sys, steps: seq<Step>, v: Sys, kind: ResetKind, back: bool, t: Sys)
    returns (all: seq<Step>)
    requires Run(cfg, s, steps, v) && NoLeaseBody(steps)
    requires Enabled(v, Host(HostReset(kind, back))) && t == NextHost(cfg, v, HostReset(kind, back))
    ensures Run(cfg, s, all, t) && NoLeaseBody(all)
  {
    RunThen(cfg, s, steps, v, Host(HostReset(kind, back)));
    all := steps + [Host(HostReset(kind, back))];
  }

  lemma MoveIsRun(cfg: Config, s: Sys, m: Move, t: Sys) returns (steps: seq<Step>)
    requires Calm(cfg, s) && Moved(cfg, s, m, t)
    ensures Run(cfg, s, steps, t)
    ensures !m.LeaseExpiry? ==> NoLeaseBody(steps)
  {
    match m
    case Do(step) => steps := DoIsRun(cfg, s, step, t);
    case PulseExpiry(ch, w) => steps := HandledIsRun(cfg, s, PulseFire(ch), PulseBody(ch, w), t);
    case WarningExpiry => steps := HandledIsRun(cfg, s, WarningFire, WarningBody, t);
    case RebootExpiry(back) => steps := HandledIsRun(cfg, s, RebootFire, RebootBody(back), t);
    case LeaseExpiry(writes, scheduled, warned) => steps := LeaseExpiryIsRun(cfg, s, writes, scheduled, warned, t);
    case DogExpiry(fed, accepted) =>
      steps := [Dog(DogSample), Dog(DogBody(fed, accepted))];
      TwoSteps(cfg, s, Dog(DogSample), Dog(DogBody(fed, accepted)));
    case HostExpiry(kind, writes, back) => steps := HostExpiryIsRun(cfg, s, kind, writes, back, t);
  }

  lemma OneStep(cfg: Config, s: Sys, a: Step)
    requires Enabled(s, a)
    ensures Run(cfg, s, [a], Next(cfg, s, a))
  {
    assert [a][1..] == [];
  }

  lemma TwoSteps(cfg: Config, s: Sys, a: Step, b: Step)
    requires Enabled(s, a) && Enabled(Next(cfg, s, a), b)
    ensures Run(cfg, s, [a, b], Next(cfg, Next(cfg, s, a), b))
  {
    assert [a, b][1..] == [b];
    OneStep(cfg, Next(cfg, s, a), b);
  }

  lemma {:induction false} RunAppend(cfg: Config, s: Sys, a: seq<Step>, t: Sys, b: seq<Step>, u: Sys)
    requires Run(cfg, s, a, t) && Run(cfg, t, b, u)
    ensures Run(cfg, s, a + b, u)
    decreases |a|
  {
    if a == [] {
      assert a + b == b;
    } else {
      DropInFront(a, b);
      RunAppend(cfg, Next(cfg, s, a[0]), a[1..], t, b, u);
    }
  }

  lemma BehaviourCalm(cfg: Config, now: nat, moves: seq<Move>, states: seq<Sys>, i: nat)
    requires Behaviour(cfg, now, moves, states) && i < |states|
    ensures Calm(cfg, states[i])
  {
    BehaviourTimed(cfg, now, moves, states, i);
    TimedIsCalm(cfg, states[i]);
  }

  lemma BehaviourMove(cfg: Config, now: nat, moves: seq<Move>, states: seq<Sys>, k: nat) returns (steps: seq<Step>)
    requires Behaviour(cfg, now, moves, states) && k < |moves|
    ensures Run(cfg, states[k], steps, states[k + 1])
    ensures !moves[k].LeaseExpiry? ==> NoLeaseBody(steps)
  {
    BehaviourCalm(cfg, now, moves, states, k);
    assert MovedAt(cfg, moves, states, k);
    steps := MoveIsRun(cfg, states[k], moves[k], states[k + 1]);
  }

  /** A stretch of a behaviour, as a run of steps. */
  lemma {:induction false} BehaviourIsRun(cfg: Config, now: nat, moves: seq<Move>, states: seq<Sys>, i: nat, j: nat)
    returns (steps: seq<Step>)
    requires Behaviour(cfg, now, moves, states) && i <= j < |states|
    ensures Run(cfg, states[i], steps, states[j])
    ensures (forall k :: i <= k < j ==> !moves[k].LeaseExpiry?) ==> NoLeaseBody(steps)
    decreases j - i
  {
    if i == j {
      steps := [];
    } else {
      var front := BehaviourIsRun(cfg, now, moves, states, i, j - 1);
      var last := BehaviourMove(cfg, now, moves, states, j - 1);
      RunAppend(cfg, states[i], front, states[j - 1], last, states[j]);
      NoBodies(moves, i, j, front, last);
      steps := front + last;
    }
  }

  lemma NoBodies(moves: seq<Move>, i: nat, j: nat, front: seq<Step>, last: seq<Step>)
    requires i < j <= |moves| && (!moves[j - 1].LeaseExpiry? ==> NoLeaseBody(last))
    requires (forall k :: i <= k < j - 1 ==> !moves[k].LeaseExpiry?) ==> NoLeaseBody(front)
    ensures (forall k :: i <= k < j ==> !moves[k].LeaseExpiry?) ==> NoLeaseBody(front + last)
  {
  }

  /**
   * After a heartbeat or a successful command, no autonomous reboot is pending or happens until the lease expires
   * again.
   */
  lemma RenewalStopsReboot(cfg: Config, now: nat, moves: seq<Move>, states: seq<Sys>, i: nat, j: nat, cmd: Command)
    requires Behaviour(cfg, now, moves, states) && i < j < |states|
    requires moves[i] == Do(Cmd(cmd)) && Enabled(states[i], Cmd(cmd)) && Succeeds(states[i].core.relay, cmd)
    requires forall k :: i < k < j ==> !moves[k].LeaseExpiry?
    ensures states[j].core.relay.reboot.due == None && states[j].mode != Reset(Autonomous)
  {
    StoppedAt(cfg, now, moves, states, i, cmd);
    StaysStopped(cfg, now, moves, states, i + 1, j);
  }

  lemma StaysStopped(cfg: Config, now: nat, moves: seq<Move>, states: seq<Sys>, i: nat, j: nat)
    requires Behaviour(cfg, now, moves, states) && i <= j < |states| && RebootStopped(states[i])
    requires forall k :: i <= k < j ==> !moves[k].LeaseExpiry?
    ensures RebootStopped(states[j])
  {
    BehaviourCalm(cfg, now, moves, states, i);
    var steps := BehaviourIsRun(cfg, now, moves, states, i, j);
    StoppedRun(cfg, states[i], steps, states[j]);
  }

  lemma StoppedAt(cfg: Config, now: nat, moves: seq<Move>, states: seq<Sys>, i: nat, cmd: Command)
    requires Behaviour(cfg, now, moves, states) && i < |moves|
    requires moves[i] == Do(Cmd(cmd)) && Enabled(states[i], Cmd(cmd)) && Succeeds(states[i].core.relay, cmd)
    ensures RebootStopped(states[i + 1])
  {
    BehaviourTimed(cfg, now, moves, states, i);
    assert MovedAt(cfg, moves, states, i);
    RenewedStops(cfg, states[i], cmd);
  }

  lemma RenewedStops(cfg: Config, s: Sys, cmd: Command)
    requires Timed(cfg, s) && Enabled(s, Cmd(cmd)) && Succeeds(s.core.relay, cmd)
    ensures RebootStopped(Settled(NextCommand(cfg, s, cmd)))
  {
    CommandReboot(cfg, s, cmd);
    CommandMoved(cfg, s, cmd);
    SettleKeeps(NextCommand(cfg, s, cmd).core, s.now);
  }

  // ----- The host's reset -----

  lemma HandledMode(cfg: Config, s: Sys, fire: Handler, body: Handler, t: Sys)
    requires Handled(cfg, s, fire, body, t)
    ensures t.mode == Running || t.mode == Reset(Autonomous)
  {
  }

  lemma PlainMode(cfg: Config, s: Sys, step: Step)
    requires Plain(step) && Enabled(s, step)
    ensures Next(cfg, s, step).mode == Running
  {
  }

  lemma LeaseMode(cfg: Config, s: Sys, writes: seq<Write>, scheduled: bool, warned: bool, t: Sys)
    requires Moved(cfg, s, LeaseExpiry(writes, scheduled, warned), t)
    ensures t.mode == Running || t.mode == Reset(Autonomous)
  {
    var u :| Handled(cfg, s, LeaseFire, LeaseBody(writes), u) &&
             if LeaseWantsReboot(cfg, s.core, writes) then TailHandled(cfg, u, scheduled, warned, t) else t == u;
    HandledMode(cfg, s, LeaseFire, LeaseBody(writes), u);
    if LeaseWantsReboot(cfg, s.core, writes) {
      TailMode(cfg, u, scheduled, warned, t);
    }
  }

  lemma TailMode(cfg: Config, u: Sys, scheduled: bool, warned: bool, t: Sys)
    requires TailHandled(cfg, u, scheduled, warned, t)
    ensures t.mode == u.mode
  {
  }

  lemma OtherMode(cfg: Config, s: Sys, m: Move, t: Sys)
    requires Moved(cfg, s, m, t) && !m.HostExpiry?
    ensures t.mode == Running || t.mode == Reset(Autonomous)
  {
    match m
    case Do(step) => PlainMode(cfg, s, step);
    case PulseExpiry(ch, w) => HandledMode(cfg, s, PulseFire(ch), PulseBody(ch, w), t);
    case LeaseExpiry(writes, scheduled, warned) => LeaseMode(cfg, s, writes, scheduled, warned, t);
    case WarningExpiry => HandledMode(cfg, s, WarningFire, WarningBody, t);
    case RebootExpiry(back) => HandledMode(cfg, s, RebootFire, RebootBody(back), t);
    case DogExpiry(_, _) =>
  }

  lemma HostExpiryPins(cfg: Config, s: Sys, kind: ResetKind, writes: seq<Write>, back: bool, t: Sys)
    requires Calm(cfg, s) && HostHandled(cfg, s, kind, writes, back, t)
    ensures WellFormed(t) && (t.mode == Running || PinsLow(t))
  {
    var u := NextHost(cfg, s, HostFire(kind));
    var v := NextHost(cfg, u, HostOff(kind, writes));
    OffTellsFirst(cfg, s, kind, writes, u, v);
    SettleKeeps(v.core, v.now);
    if Succeeding(writes) == CHANNELS {
      AfterAllOff(cfg, u, kind, Host(HostOff(kind, writes)));
    }
  }

  lemma MovePins(cfg: Config, s: Sys, m: Move, t: Sys)
    requires Calm(cfg, s) && Moved(cfg, s, m, t)
    ensures t.mode == Running || t.mode == Reset(Autonomous) || PinsLow(t)
  {
    if m.HostExpiry? {
      HostExpiryPins(cfg, s, m.kind, m.writes, m.back, t);
    } else {
      OtherMode(cfg, s, m, t);
    }
  }

  lemma PinsAt(cfg: Config, now: nat, moves: seq<Move>, states: seq<Sys>, k: nat)
    requires Behaviour(cfg, now, moves, states) && k < |moves|
    ensures states[k + 1].mode == Running || states[k + 1].mode == Reset(Autonomous) || PinsLow(states[k + 1])
  {
    BehaviourCalm(cfg, now, moves, states, k);
    assert MovedAt(cfg, moves, states, k);
    MovePins(cfg, states[k], moves[k], states[k + 1]);
  }

  /** With handlers run whole, a host reboot or BOOTSEL reset finds every pin low, whatever has failed before. */
  lemma HostResetWithPinsLow(cfg: Config, now: nat, moves: seq<Move>, states: seq<Sys>, i: nat)
    requires Behaviour(cfg, now, moves, states) && i < |states|
    requires states[i].mode == Reset(HostReboot) || states[i].mode == Reset(Bootsel)
    ensures |states[i].core.relay.pins| == CHANNELS && PinsLow(states[i])
  {
    BehaviourCalm(cfg, now, moves, states, i);
    if i > 0 {
      PinsAt(cfg, now, moves, states, i - 1);
    }
  }

  /**
   * The fail-safe chain for whole moves: a relay on with no lease timer pending means the write failure is latched,
   * and the watchdog is never fed again.
   */
  lemma StuckLeaseStarvesWatchdog(cfg: Config, now: nat, moves: seq<Move>, states: seq<Sys>, i: nat, j: nat)
    requires Behaviour(cfg, now, moves, states) && i <= j < |states|
    requires cfg.policy.EnergizedOnly? || cfg.policy.AlwaysOnOwner?
    requires states[i].core.relay.on != {} && states[i].core.relay.lease.due == None
    ensures IoFailed(states[i]) && states[j].dog.feeds <= states[i].dog.feeds
  {
    BehaviourTimed(cfg, now, moves, states, i);
    var before := BehaviourIsRun(cfg, now, moves, states, 0, i);
    var after := BehaviourIsRun(cfg, now, moves, states, i, j);
    FailSafeChain(cfg, now, before, states[i], after, states[j]);
  }

  /** The timer was due now; it has fed and set the next one, unless a fatal reason is active. */
  predicate FedOnTime(cfg: Config, s: Sys, t: Sys) {
    && s.dog.due == Some(s.now)
    && t.dog.feeds == s.dog.feeds + (if Fatal(s.core) then 0 else 1)
    && t.dog.due == if Fatal(s.core) then None else Some(s.now + cfg.feedIntervalMs)
  }

  /**
   * With handlers run whole, an expiry of the supervisor's timer feeds exactly if none of the three fatal reasons is
   * active, and sets the next one exactly an interval after this one.
   */
  lemma FeedsOnTime(cfg: Config, now: nat, moves: seq<Move>, states: seq<Sys>, i: nat)
    requires Behaviour(cfg, now, moves, states) && i < |moves| && moves[i] == DogExpiry(true, true)
    requires var dog := states[i].dog; dog.started && dog.enabled && dog.healthy
    ensures FedOnTime(cfg, states[i], states[i + 1])
  {
    var s, t := states[i], states[i + 1];
    StateMoved(cfg, now, moves, states, i, s, DogExpiry(true, true), t);
    ExpiryFeeds(cfg, s, t);
  }

  lemma StateMoved(cfg: Config, now: nat, moves: seq<Move>, states: seq<Sys>, i: nat, s: Sys, m: Move, t: Sys)
    requires Behaviour(cfg, now, moves, states) && i < |moves| && s == states[i] && m == moves[i] && t == states[i + 1]
    ensures Timed(cfg, s) && Moved(cfg, s, m, t)
  {
    BehaviourTimed(cfg, now, moves, states, i);
    assert MovedAt(cfg, moves, states, i);
  }

  lemma ExpiryFeeds(cfg: Config, s: Sys, t: Sys)
    requires Timed(cfg, s) && Moved(cfg, s, DogExpiry(true, true), t)
    requires s.dog.started && s.dog.enabled && s.dog.healthy
    ensures FedOnTime(cfg, s, t)
  {
    var u := NextDog(cfg, s, DogSample);
    SampledFeeds(s.core, s.dog, u.dog, s.now + cfg.feedIntervalMs);
  }

  // ----- A silent host -----

  /** The move renews the lease: a heartbeat, a successful command, or the off-all of a host request. */
  predicate RenewsLease(cfg: Config, s: Sys, m: Move) {
    match m
    case Do(step) => step.Cmd? && Enabled(s, step) && Succeeds(s.core.relay, step.cmd)
    case HostExpiry(_, writes, _) => NoneFails(writes)
    case _ => false
  }

  lemma SilentCommand(cfg: Config, s: Sys, cmd: Command)
    requires Enabled(s, Cmd(cmd)) && !Succeeds(s.core.relay, cmd)
    ensures NextCommand(cfg, s, cmd).lastRenew == s.lastRenew
  {
  }

  lemma SilentTimer(cfg: Config, s: Sys, t: Handler)
    requires Enabled(s, Timer(t))
    ensures NextTimer(cfg, s, t).lastRenew == s.lastRenew
  {
  }

  lemma SilentHost(cfg: Config, s: Sys, kind: ResetKind, writes: seq<Write>, back: bool, t: Sys)
    requires Moved(cfg, s, HostExpiry(kind, writes, back), t) && !RenewsLease(cfg, s, HostExpiry(kind, writes, back))
    ensures t.lastRenew == s.lastRenew
  {
    var u := NextHost(cfg, s, HostFire(kind));
    OffAnswer(cfg, u.core, u.now, writes);
    NoneFailsIff(writes);
    SilentOff(cfg, u, kind, writes, SetAll(cfg, u.core, u.now, {}, writes));
  }

  lemma SilentOff(cfg: Config, u: Sys, kind: ResetKind, writes: seq<Write>, result: (Core, Ret))
    requires Enabled(u, Host(HostOff(kind, writes))) && result == SetAll(cfg, u.core, u.now, {}, writes)
    requires result.1 != Success
    ensures NextHost(cfg, u, HostOff(kind, writes)).lastRenew == u.lastRenew
  {
  }

  lemma SilentMove(cfg: Config, s: Sys, m: Move, t: Sys)
    requires Moved(cfg, s, m, t) && !RenewsLease(cfg, s, m)
    ensures t.lastRenew == s.lastRenew
  {
    match m
    case HostExpiry(kind, writes, back) => SilentHost(cfg, s, kind, writes, back, t);
    case Do(step) =>
      SilentDo(cfg, s, step, t);
    case PulseExpiry(ch, w) => SilentHandled(cfg, s, PulseFire(ch), PulseBody(ch, w), t);
    case LeaseExpiry(writes, scheduled, warned) =>
      SilentLease(cfg, s, writes, scheduled, warned, t);
    case WarningExpiry => SilentHandled(cfg, s, WarningFire, WarningBody, t);
    case RebootExpiry(back) => SilentHandled(cfg, s, RebootFire, RebootBody(back), t);
    case DogExpiry(fed, accepted) => SilentDog(cfg, s, fed, accepted, t);
  }

  lemma SilentDog(cfg: Config, s: Sys, fed: bool, accepted: bool, t: Sys)
    requires Moved(cfg, s, DogExpiry(fed, accepted), t)
    ensures t.lastRenew == s.lastRenew
  {
  }

  lemma SilentLease(cfg: Config, s: Sys, writes: seq<Write>, scheduled: bool, warned: bool, t: Sys)
    requires Moved(cfg, s, LeaseExpiry(writes, scheduled, warned), t)
    ensures t.lastRenew == s.lastRenew
  {
    var u :| Handled(cfg, s, LeaseFire, LeaseBody(writes), u) &&
             if LeaseWantsReboot(cfg, s.core, writes) then TailHandled(cfg, u, scheduled, warned, t) else t == u;
    SilentHandled(cfg, s, LeaseFire, LeaseBody(writes), u);
    if LeaseWantsReboot(cfg, s.core, writes) {
      SilentTail(cfg, u, scheduled, warned, t);
    }
  }

  lemma SilentDo(cfg: Config, s: Sys, step: Step, t: Sys)
    requires Moved(cfg, s, Do(step), t) && !RenewsLease(cfg, s, Do(step))
    ensures t.lastRenew == s.lastRenew
  {
    if step.Cmd? {
      SilentCommand(cfg, s, step.cmd);
    }
  }

  lemma SilentTail(cfg: Config, u: Sys, scheduled: bool, warned: bool, t: Sys)
    requires TailHandled(cfg, u, scheduled, warned, t)
    ensures t.lastRenew == u.lastRenew
  {
    SilentTimer(cfg, u, LeaseSubmission(scheduled));
  }

  lemma SilentHandled(cfg: Config, s: Sys, fire: Handler, body: Handler, t: Sys)
    requires Handled(cfg, s, fire, body, t)
    ensures t.lastRenew == s.lastRenew
  {
    SilentTimer(cfg, s, fire);
    SilentTimer(cfg, NextTimer(cfg, s, fire), body);
  }

  lemma SilentAt(cfg: Config, now: nat, moves: seq<Move>, states: seq<Sys>, k: nat)
    requires Behaviour(cfg, now, moves, states) && k < |moves| && !RenewsLease(cfg, states[k], moves[k])
    ensures states[k + 1].lastRenew == states[k].lastRenew
  {
    assert MovedAt(cfg, moves, states, k);
    SilentMove(cfg, states[k], moves[k], states[k + 1]);
  }

  lemma {:induction false} NeverChanged(states: seq<Sys>, i: nat, j: nat)
    requires i <= j < |states|
    requires forall k :: i <= k < j ==> states[k + 1].lastRenew == states[k].lastRenew
    ensures states[j].lastRenew == states[i].lastRenew
    decreases j - i
  {
    if i < j {
      NeverChanged(states, i, j - 1);
    }
  }

  lemma SilentStretch(cfg: Config, now: nat, moves: seq<Move>, states: seq<Sys>, i: nat, j: nat)
    requires Behaviour(cfg, now, moves, states) && i <= j < |states|
    requires forall k :: i <= k < j ==> !RenewsLease(cfg, states[k], moves[k])
    ensures states[j].lastRenew == states[i].lastRenew
  {
    forall k | i <= k < j
      ensures states[k + 1].lastRenew == states[k].lastRenew
    {
      SilentAt(cfg, now, moves, states, k);
    }
    NeverChanged(states, i, j);
  }

  /**
   * Under a timeout policy, a host silent for longer than the timeout finds every relay off and every pin low,
   * unless a write failure is latched.
   */
  lemma SilentHostGoesDark(cfg: Config, now: nat, moves: seq<Move>, states: seq<Sys>, i: nat, j: nat)
    requires Behaviour(cfg, now, moves, states) && i <= j < |states|
    requires cfg.policy.EnergizedOnly? || cfg.policy.AlwaysOnOwner?
    requires forall k :: i <= k < j ==> !RenewsLease(cfg, states[k], moves[k])
    requires states[j].now > states[i].now + cfg.timeoutMs
    ensures IoFailed(states[j]) || (states[j].core.relay.on == {} && PinsLow(states[j]))
  {
    BehaviourTimed(cfg, now, moves, states, i);
    BehaviourTimed(cfg, now, moves, states, j);
    SilentStretch(cfg, now, moves, states, i, j);
  }
}
