/** The runtime watchdog supervisor of firmware/src/watchdog_supervisor.c. */
module Watchdog {
  import opened Common
  import H = HealthSpec
  import HealthModel

  /** The supervisor's model, its work item, and the health reasons sampled by a handler in flight. */
  datatype State = State(started: bool, enabled: bool, healthy: bool, feeds: nat, feedErrors: nat,
                         due: Option<nat>, sample: Option<set<H.Reason>>)

  const STOPPED: State := State(false, false, false, 0, 0, None, None)

  predicate FeedingAllowed(reasons: set<H.Reason>) {
    H.RelayGpioInitFailed !in reasons && H.RelayIoFailed !in reasons && H.WatchdogSupervisorFailed !in reasons
  }

  predicate RuntimeReady(log: seq<H.Event>) {
    H.Run(log).state != H.Booting && !H.Active(log, H.RpcNotReady)
  }

  function Schedule(due: Option<nat>, at: nat, accepted: bool): Option<nat> {
    if due.None? && accepted then Some(at) else due
  }

  /**
   * The supervisor and the health calls after watchdog_supervisor_start; ready says that both the runtime and the
   * watchdog hardware are.
   */
  function Start(w: State, log: seq<H.Event>, next: nat, ready: bool, setUp: bool, accepted: bool)
    : (State, seq<H.Event>)
  {
    if w.started then (w, log)
    else if !ready then (w.(enabled := false, healthy := false), log)
    else if !setUp then
      (w.(enabled := false, started := false, healthy := false, feedErrors := w.feedErrors + 1),
       log + [H.RecordWatchdogSupervisorFailed])
    else
      (w.(started := true, enabled := true, healthy := true, due := Schedule(w.due, next, accepted)), log)
  }

  /** The handler starts by copying the health snapshot, before it takes its own lock. */
  function Sample(w: State, log: seq<H.Event>): State {
    w.(due := None, sample := Some(H.ActiveReasons(log)))
  }

  /** The rest of the handler; fed is the answer of the hardware feed. */
  function Work(w: State, log: seq<H.Event>, next: nat, fed: bool, accepted: bool): (State, seq<H.Event>)
    requires w.sample.Some?
  {
    var idle := w.(sample := None);
    if !w.started || !w.enabled || !w.healthy then (idle, log)
    else if !FeedingAllowed(w.sample.value) then (idle.(healthy := false), log)
    else if !fed then
      (idle.(healthy := false, feedErrors := w.feedErrors + 1), log + [H.RecordWatchdogSupervisorFailed])
    else (idle.(feeds := w.feeds + 1, due := Schedule(w.due, next, accepted)), log)
  }

  // ----- What they come to -----

  /** The supervisor starts once, exactly when everything is ready and the hardware can be set up. */
  lemma StartIs(w: State, log: seq<H.Event>, next: nat, ready: bool, setUp: bool, accepted: bool)
    ensures var (d, after) := Start(w, log, next, ready, setUp, accepted);
            var tries := !w.started && ready;
            && (d.started <==> w.started || (ready && setUp))
            && (d.enabled <==> if w.started then w.enabled else ready && setUp)
            && (d.healthy <==> if w.started then w.healthy else ready && setUp)
            && d.feeds == w.feeds && d.sample == w.sample
            && d.feedErrors == w.feedErrors + (if tries && !setUp then 1 else 0)
            && d.due == (if tries && setUp && accepted && w.due.None? then Some(next) else w.due)
            && after == (if tries && !setUp then log + [H.RecordWatchdogSupervisorFailed] else log)
  {
  }

  /** A handler of a supervisor in operation feeds exactly if none of the three fatal reasons is in its sample. */
  lemma WorkIs(w: State, log: seq<H.Event>, next: nat, fed: bool, accepted: bool)
    requires w.sample.Some?
    ensures var (d, after) := Work(w, log, next, fed, accepted);
            var operates := w.started && w.enabled && w.healthy;
            var fatal := H.RelayGpioInitFailed in w.sample.value || H.RelayIoFailed in w.sample.value
                         || H.WatchdogSupervisorFailed in w.sample.value;
            && d.started == w.started && d.enabled == w.enabled && d.sample == None
            && d.feeds == w.feeds + (if operates && !fatal && fed then 1 else 0)
            && (d.healthy <==> w.healthy && (operates ==> !fatal && fed))
            && d.feedErrors == w.feedErrors + (if operates && !fatal && !fed then 1 else 0)
            && d.due == (if operates && !fatal && fed && accepted && w.due.None? then Some(next) else w.due)
            && after == (if operates && !fatal && !fed then log + [H.RecordWatchdogSupervisorFailed] else log)
  {
  }

  /** The runtime is ready exactly if RPC is, and GPIO or some cause of another state than booting. */
  lemma RuntimeReadyIff(log: seq<H.Event>)
    ensures RuntimeReady(log) <==>
            && !H.Active(log, H.RpcNotReady)
            && (H.GpioReadyAfter(log) || H.AnyRecovery(log) || H.AnyFault(log) || H.AnyDegradation(log))
  {
    H.StateIff(log);
  }

  class Supervisor {
    const health: HealthModel.Model
    var started: bool
    var enabled: bool
    var healthy: bool
    var feeds: nat
    var feedErrors: nat
    var due: Option<nat>
    var sample: Option<set<H.Reason>>
    var lastResetWatchdog: bool

    constructor (health: HealthModel.Model)
      ensures this.health == health && View() == STOPPED && !lastResetWatchdog
    {
      lastResetWatchdog := false;
      this.health := health;
      started, enabled, healthy, feeds, feedErrors := false, false, false, 0, 0;
      due, sample := None, None;
    }

    ghost function View(): State
      reads this
    {
      State(started, enabled, healthy, feeds, feedErrors, due, sample)
    }

    method RecordSupervisorFailureLocked()
      modifies this`healthy, this`feedErrors, health
      ensures old(health.Valid()) ==> health.Valid()
      ensures health.log == old(health.log) + [H.RecordWatchdogSupervisorFailed]
      ensures View() == old(View()).(healthy := false, feedErrors := old(feedErrors) + 1)
      ensures lastResetWatchdog == old(lastResetWatchdog)
    {
      healthy := false;
      feedErrors := feedErrors + 1;
      health.RecordWatchdogSupervisorFailed();
    }

    method CheckRuntimeReady() returns (ready: bool)
      requires health.Valid()
      ensures ready == RuntimeReady(health.log)
    {
      H.ReasonsRefine(health.log);
      ready := health.state != H.Booting && H.RpcNotReady !in health.shownReasons;
    }

    /**
     * watchdog_supervisor_start, once it is known whether everything is ready; `cause` says whether the reset cause
     * could be read, and if so whether the watchdog was one.
     */
    method Launch(cause: Option<bool>, next: nat, ready: bool, setUp: bool, accepted: bool)
      modifies this`started, this`enabled, this`healthy, this`feedErrors, this`due, this`lastResetWatchdog, health
      ensures lastResetWatchdog == (cause == Some(true))
      ensures old(health.Valid()) ==> health.Valid()
      ensures (View(), health.log) == Start(old(View()), old(health.log), next, ready, setUp, accepted)
    {
      lastResetWatchdog := match cause case None => false case Some(watchdog) => watchdog;
      if started {
        return;
      }
      if !ready {
        enabled := false;
        healthy := false;
        return;
      }
      if !setUp {
        enabled := false;
        started := false;
        RecordSupervisorFailureLocked();
        return;
      }
      StartFeeding(next, accepted);
    }

    method StartFeeding(next: nat, accepted: bool)
      modifies this`started, this`enabled, this`healthy, this`due
      ensures View() == old(View()).(started := true, enabled := true, healthy := true,
                                     due := Schedule(old(due), next, accepted))
    {
      started := true;
      enabled := true;
      healthy := true;
      due := Schedule(due, next, accepted);
    }

    method TakeSample()
      requires health.Valid()
      modifies this
      ensures View() == Sample(old(View()), health.log) && lastResetWatchdog == old(lastResetWatchdog)
    {
      H.ReasonsRefine(health.log);
      due := None;
      sample := Some(health.shownReasons);
    }

    method WorkHandler(next: nat, fed: bool, accepted: bool)
      requires sample.Some?
      modifies this, health
      ensures old(health.Valid()) ==> health.Valid()
      ensures (View(), health.log) == Work(old(View()), old(health.log), next, fed, accepted)
      ensures lastResetWatchdog == old(lastResetWatchdog)
    {
      var reasons := sample.value;
      sample := None;
      if !started || !enabled || !healthy {
        return;
      }
      if !FeedingAllowed(reasons) {
        healthy := false;
        return;
      }
      if !fed {
        RecordSupervisorFailureLocked();
        return;
      }
      feeds := feeds + 1;
      due := Schedule(due, next, accepted);
    }
  }
}
