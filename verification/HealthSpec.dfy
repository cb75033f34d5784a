/** The health model of firmware/src/health.c: its calls, their effect, and what a history of calls means. */
module HealthSpec {
  import opened Common

  datatype Reason =
    | RelayGpioInitFailed
    | RelayIoFailed
    | RpcNotReady
    | CommOwnerTimeout
    | CommRebootPending
    | IndicatorDegraded
    | HostRebootPending
    | RebootFailed
    | WatchdogSupervisorFailed

  datatype State = Booting | Normal | RelayActive | Degraded | Fault | RecoveryPending

  /** One call into the module. */
  datatype Event =
    | SetRelayGpioReady(ready: bool)
    | SetRpcReady(ready: bool)
    | SetRelayState(relays: set<nat>, pulses: set<nat>)
    | SetCommOwnerTimedOut(on: bool)
    | SetCommRebootPending(on: bool)
    | SetHostRebootPending(on: bool)
    | SetIndicatorDegraded(on: bool)
    | RecordRelayGpioInitFailed
    | RecordRelayIoError
    | RecordRebootFailed
    | RecordWatchdogSupervisorFailed

  /** The static model: the raw facts, then the published snapshot. */
  datatype Health = Health(
    gpioReady: bool, rpcReady: bool, readySeen: bool, latched: set<Reason>,
    state: State, reasons: set<Reason>, primary: Option<Reason>,
    relays: set<nat>, pulses: set<nat>, transitions: nat)

  const PRIORITY: seq<Reason> := [
    CommRebootPending, HostRebootPending, RebootFailed, RelayGpioInitFailed, RelayIoFailed,
    WatchdogSupervisorFailed, CommOwnerTimeout, RpcNotReady, IndicatorDegraded]

  predicate IsRecovery(r: Reason) {
    r == CommRebootPending || r == HostRebootPending
  }

  predicate IsFault(r: Reason) {
    r == RelayGpioInitFailed || r == RelayIoFailed || r == RebootFailed || r == WatchdogSupervisorFailed
  }

  predicate IsDegraded(r: Reason) {
    r == CommOwnerTimeout || r == IndicatorDegraded
  }

  /** The first active entry of the priority table from position i on. */
  function FirstActive(reasons: set<Reason>, i: nat): Option<Reason>
    requires i <= |PRIORITY|
    decreases |PRIORITY| - i
  {
    if i == |PRIORITY| then None
    else if PRIORITY[i] in reasons then Some(PRIORITY[i])
    else FirstActive(reasons, i + 1)
  }

  function Derive(reasons: set<Reason>, gpioReady: bool, rpcReady: bool, readySeen: bool, energized: bool): State {
    if CommRebootPending in reasons || HostRebootPending in reasons then RecoveryPending
    else if RelayGpioInitFailed in reasons || RelayIoFailed in reasons || RebootFailed in reasons
         || WatchdogSupervisorFailed in reasons then Fault
    else if CommOwnerTimeout in reasons || IndicatorDegraded in reasons then Degraded
    else if RpcNotReady in reasons && readySeen then Degraded
    else if !gpioReady || !rpcReady then Booting
    else if energized then RelayActive
    else Normal
  }

  function Put(s: set<Reason>, r: Reason, on: bool): set<Reason> {
    if on then s + {r} else s - {r}
  }

  /** The field updates of a call, before the snapshot is recomputed. */
  function Record(h: Health, e: Event): Health {
    match e
    case SetRelayGpioReady(b) => h.(gpioReady := b)
    case SetRpcReady(b) => h.(rpcReady := b)
    case SetRelayState(r, p) => h.(relays := r, pulses := p)
    case SetCommOwnerTimedOut(b) => h.(latched := Put(h.latched, CommOwnerTimeout, b))
    case SetCommRebootPending(b) => h.(latched := Put(h.latched, CommRebootPending, b))
    case SetHostRebootPending(b) => h.(latched := Put(h.latched, HostRebootPending, b))
    case SetIndicatorDegraded(b) => h.(latched := Put(h.latched, IndicatorDegraded, b))
    case RecordRelayGpioInitFailed => h.(latched := h.latched + {RelayGpioInitFailed})
    case RecordRelayIoError => h.(latched := h.latched + {RelayIoFailed})
    case RecordRebootFailed => h.(latched := h.latched + {RebootFailed} - {CommRebootPending, HostRebootPending})
    case RecordWatchdogSupervisorFailed => h.(latched := h.latched + {WatchdogSupervisorFailed})
  }

  function Recompute(h: Health): Health {
    var reasons := Put(h.latched, RpcNotReady, !h.rpcReady);
    var seen := h.readySeen || (h.gpioReady && h.rpcReady);
    var state := Derive(reasons, h.gpioReady, h.rpcReady, seen, h.relays + h.pulses != {});
    h.(readySeen := seen, reasons := reasons, primary := FirstActive(reasons, 0), state := state,
       transitions := if state != h.state then h.transitions + 1 else h.transitions)
  }

  function Apply(h: Health, e: Event): Health {
    Recompute(Record(h, e))
  }

  function Initial(): Health {
    Recompute(Health(false, false, false, {}, Booting, {}, None, {}, {}, 0)).(transitions := 0)
  }

  function Run(history: seq<Event>): Health {
    if history == [] then Initial()
    else Apply(Run(history[..|history| - 1]), history[|history| - 1])
  }

  lemma RunStep(history: seq<Event>, e: Event)
    ensures Run(history + [e]) == Apply(Run(history), e)
  {
    assert (history + [e])[..|history|] == history;
  }

  // ----- What a history means, without replaying the model -----

  /** What one call decides about a reason: on, off, or nothing. */
  function Decides(e: Event, r: Reason): Option<bool> {
    match e
    case SetRpcReady(b) => if r == RpcNotReady then Some(!b) else None
    case SetCommOwnerTimedOut(b) => if r == CommOwnerTimeout then Some(b) else None
    case SetCommRebootPending(b) => if r == CommRebootPending then Some(b) else None
    case SetHostRebootPending(b) => if r == HostRebootPending then Some(b) else None
    case SetIndicatorDegraded(b) => if r == IndicatorDegraded then Some(b) else None
    case RecordRelayGpioInitFailed => if r == RelayGpioInitFailed then Some(true) else None
    case RecordRelayIoError => if r == RelayIoFailed then Some(true) else None
    case RecordWatchdogSupervisorFailed => if r == WatchdogSupervisorFailed then Some(true) else None
    case RecordRebootFailed =>
      if r == RebootFailed then Some(true) else if IsRecovery(r) then Some(false) else None
    case _ => None
  }

  /** A reason is active when the last call that decides it says so; only RPC starts out not ready. */
  predicate Active(history: seq<Event>, r: Reason) {
    if history == [] then r == RpcNotReady
    else
      match Decides(history[|history| - 1], r)
      case Some(b) => b
      case None => Active(history[..|history| - 1], r)
  }

  predicate GpioReadyAfter(history: seq<Event>) {
    history != [] &&
    var e := history[|history| - 1];
    if e.SetRelayGpioReady? then e.ready else GpioReadyAfter(history[..|history| - 1])
  }

  function MasksAfter(history: seq<Event>): (set<nat>, set<nat>) {
    if history == [] then ({}, {})
    else
      var e := history[|history| - 1];
      if e.SetRelayState? then (e.relays, e.pulses) else MasksAfter(history[..|history| - 1])
  }

  function ActiveReasons(history: seq<Event>): set<Reason> {
    set r: Reason | Active(history, r)
  }

  /** GPIO and RPC were ready together at some moment of the history. */
  ghost predicate EverReady(history: seq<Event>) {
    exists k :: 0 <= k <= |history| && GpioReadyAfter(history[..k]) && !Active(history[..k], RpcNotReady)
  }

  ghost function StateAfter(history: seq<Event>): State {
    var masks := MasksAfter(history);
    Derive(ActiveReasons(history), GpioReadyAfter(history), !Active(history, RpcNotReady),
           EverReady(history), masks.0 + masks.1 != {})
  }

  /** The number of calls after which the state differs from the state before them. */
  ghost function StateChanges(history: seq<Event>): nat {
    if history == [] then 0
    else
      var before := history[..|history| - 1];
      StateChanges(before) + if StateAfter(history) != StateAfter(before) then 1 else 0
  }

  /** How one more call changes what the history says. */
  lemma {:induction false} OneMore(history: seq<Event>, e: Event)
    ensures forall r: Reason :: Active(history + [e], r) <==>
                                match Decides(e, r) case Some(b) => b case None => Active(history, r)
    ensures MasksAfter(history + [e]) == if e.SetRelayState? then (e.relays, e.pulses) else MasksAfter(history)
  {
    assert (history + [e])[..|history|] == history;
  }

  lemma EverReadyStep(history: seq<Event>)
    requires history != []
    ensures EverReady(history) <==>
            EverReady(history[..|history| - 1]) || (GpioReadyAfter(history) && !Active(history, RpcNotReady))
  {
    var before := history[..|history| - 1];
    assert history[..|history|] == history;
    assert forall k :: 0 <= k <= |before| ==> before[..k] == history[..k];
    if EverReady(before) {
      var k :| 0 <= k <= |before| && GpioReadyAfter(before[..k]) && !Active(before[..k], RpcNotReady);
      assert GpioReadyAfter(history[..k]) && !Active(history[..k], RpcNotReady);
    }
    if EverReady(history) {
      var k :| 0 <= k <= |history| && GpioReadyAfter(history[..k]) && !Active(history[..k], RpcNotReady);
      if k < |history| {
        assert GpioReadyAfter(before[..k]) && !Active(before[..k], RpcNotReady);
      }
    }
  }

  /** The published reasons are the latched ones plus the RPC one, which is never latched. */
  predicate Coherent(h: Health) {
    RpcNotReady !in h.latched && h.reasons == Put(h.latched, RpcNotReady, !h.rpcReady)
  }

  lemma LatchedStep(h: Health, e: Event, r: Reason)
    requires RpcNotReady !in h.latched
    ensures r in Record(h, e).latched <==>
            r != RpcNotReady && match Decides(e, r) case Some(b) => b case None => r in h.latched
  {
    match e
    case RecordRebootFailed =>
    case SetCommOwnerTimedOut(_) =>
    case SetCommRebootPending(_) =>
    case SetHostRebootPending(_) =>
    case SetIndicatorDegraded(_) =>
    case _ =>
  }

  lemma ReasonsStep(h: Health, e: Event)
    requires Coherent(h)
    ensures Coherent(Apply(h, e))
    ensures forall r: Reason :: r in Apply(h, e).reasons <==>
                                match Decides(e, r) case Some(b) => b case None => r in h.reasons
  {
    LatchedStep(h, e, RpcNotReady);
    forall r: Reason
      ensures r in Apply(h, e).reasons <==> match Decides(e, r) case Some(b) => b case None => r in h.reasons
    {
      LatchedStep(h, e, r);
    }
  }

  lemma FactsStep(h: Health, e: Event)
    ensures var a := Apply(h, e);
            && a.gpioReady == (if e.SetRelayGpioReady? then e.ready else h.gpioReady)
            && (a.relays, a.pulses) == (if e.SetRelayState? then (e.relays, e.pulses) else (h.relays, h.pulses))
            && a.readySeen == (h.readySeen || (a.gpioReady && a.rpcReady))
            && a.state == Derive(a.reasons, a.gpioReady, a.rpcReady, a.readySeen, a.relays + a.pulses != {})
            && a.primary == FirstActive(a.reasons, 0)
            && a.transitions == h.transitions + (if a.state != h.state then 1 else 0)
  {
    assert Record(h, e).transitions == h.transitions && Record(h, e).state == h.state;
  }

  /** After any history, the published reasons are exactly those the history leaves active. */
  lemma {:induction false} ReasonsRefine(history: seq<Event>)
    ensures Coherent(Run(history)) && Run(history).reasons == ActiveReasons(history)
  {
    if history == [] {
      assert ActiveReasons(history) == {RpcNotReady};
    } else {
      var before, e := history[..|history| - 1], history[|history| - 1];
      ReasonsRefine(before);
      ReasonsStep(Run(before), e);
      assert forall r: Reason :: r in ActiveReasons(history) <==>
                                 match Decides(e, r) case Some(b) => b case None => r in ActiveReasons(before);
    }
  }

  lemma {:induction false} FactsRefine(history: seq<Event>)
    ensures var h := Run(history);
            && h.gpioReady == GpioReadyAfter(history)
            && (h.relays, h.pulses) == MasksAfter(history)
            && h.readySeen == EverReady(history)
  {
    ReasonsRefine(history);
    assert RpcNotReady in Run(history).reasons <==> Active(history, RpcNotReady);
    if history == [] {
      assert history[..0] == history;
    } else {
      FactsRefine(history[..|history| - 1]);
      FactsStep(Run(history[..|history| - 1]), history[|history| - 1]);
      EverReadyStep(history);
    }
  }

  /** After any history, every part of the model is what the history says it should be. */
  lemma {:induction false} HistoryRefinement(history: seq<Event>)
    ensures var h := Run(history);
            && h.reasons == ActiveReasons(history)
            && h.latched == h.reasons - {RpcNotReady}
            && h.rpcReady == !Active(history, RpcNotReady)
            && h.gpioReady == GpioReadyAfter(history)
            && h.readySeen == EverReady(history)
            && (h.relays, h.pulses) == MasksAfter(history)
            && h.state == StateAfter(history)
            && h.primary == FirstActive(h.reasons, 0)
            && h.transitions == StateChanges(history)
  {
    ReasonsRefine(history);
    FactsRefine(history);
    assert RpcNotReady in Run(history).reasons <==> Active(history, RpcNotReady);
    if history == [] {
    } else {
      HistoryRefinement(history[..|history| - 1]);
      FactsStep(Run(history[..|history| - 1]), history[|history| - 1]);
    }
  }

  // ----- The state and the primary reason, written out -----

  predicate AnyRecovery(history: seq<Event>) {
    Active(history, CommRebootPending) || Active(history, HostRebootPending)
  }

  predicate AnyFault(history: seq<Event>) {
    || Active(history, RelayGpioInitFailed) || Active(history, RelayIoFailed)
    || Active(history, RebootFailed) || Active(history, WatchdogSupervisorFailed)
  }

  /** RPC counts as a degradation only once GPIO and RPC have been ready together. */
  ghost predicate AnyDegradation(history: seq<Event>) {
    || Active(history, CommOwnerTimeout) || Active(history, IndicatorDegraded)
    || (Active(history, RpcNotReady) && EverReady(history))
  }

  /** Of the six states after a history each is published exactly under its own condition on the calls made. */
  lemma StateIff(history: seq<Event>)
    ensures var state := Run(history).state;
            var calm := !AnyRecovery(history) && !AnyFault(history) && !AnyDegradation(history);
            var ready := GpioReadyAfter(history) && !Active(history, RpcNotReady);
            var masks := MasksAfter(history);
            && (state == RecoveryPending <==> AnyRecovery(history))
            && (state == Fault <==> AnyFault(history) && !AnyRecovery(history))
            && (state == Degraded <==> AnyDegradation(history) && !AnyFault(history) && !AnyRecovery(history))
            && (state == Booting <==> calm && !ready)
            && (state == RelayActive <==> calm && ready && (masks.0 != {} || masks.1 != {}))
            && (state == Normal <==> calm && ready && masks.0 == {} && masks.1 == {})
  {
    HistoryRefinement(history);
    DerivedFrom(history, ActiveReasons(history), MasksAfter(history).0, MasksAfter(history).1);
  }

  lemma DerivedFrom(history: seq<Event>, reasons: set<Reason>, relays: set<nat>, pulses: set<nat>)
    requires forall r: Reason :: r in reasons <==> Active(history, r)
    ensures var state := Derive(reasons, GpioReadyAfter(history), !Active(history, RpcNotReady), EverReady(history),
                                relays + pulses != {});
            var calm := !AnyRecovery(history) && !AnyFault(history) && !AnyDegradation(history);
            var ready := GpioReadyAfter(history) && !Active(history, RpcNotReady);
            && (state == RecoveryPending <==> AnyRecovery(history))
            && (state == Fault <==> AnyFault(history) && !AnyRecovery(history))
            && (state == Degraded <==> AnyDegradation(history) && !AnyFault(history) && !AnyRecovery(history))
            && (state == Booting <==> calm && !ready)
            && (state == RelayActive <==> calm && ready && (relays != {} || pulses != {}))
            && (state == Normal <==> calm && ready && relays == {} && pulses == {})
  {
    assert relays + pulses == {} <==> relays == {} && pulses == {};
  }

  /** The primary reason after a history, by rank. */
  lemma PrimaryIs(history: seq<Event>)
    ensures Run(history).primary ==
            if Active(history, CommRebootPending) then Some(CommRebootPending)
            else if Active(history, HostRebootPending) then Some(HostRebootPending)
            else if Active(history, RebootFailed) then Some(RebootFailed)
            else if Active(history, RelayGpioInitFailed) then Some(RelayGpioInitFailed)
            else if Active(history, RelayIoFailed) then Some(RelayIoFailed)
            else if Active(history, WatchdogSupervisorFailed) then Some(WatchdogSupervisorFailed)
            else if Active(history, CommOwnerTimeout) then Some(CommOwnerTimeout)
            else if Active(history, RpcNotReady) then Some(RpcNotReady)
            else if Active(history, IndicatorDegraded) then Some(IndicatorDegraded)
            else None
  {
    HistoryRefinement(history);
    PrimaryByRank(Run(history).reasons);
  }

  // ----- Consequences -----

  lemma {:induction false} FirstActiveIsHighest(reasons: set<Reason>, i: nat)
    requires i <= |PRIORITY|
    ensures match FirstActive(reasons, i)
            case None => forall k :: i <= k < |PRIORITY| ==> PRIORITY[k] !in reasons
            case Some(r) => exists n :: i <= n < |PRIORITY| && PRIORITY[n] == r && r in reasons
                                        && forall k :: i <= k < n ==> PRIORITY[k] !in reasons
    decreases |PRIORITY| - i
  {
    if i < |PRIORITY| && PRIORITY[i] !in reasons {
      FirstActiveIsHighest(reasons, i + 1);
    }
  }

  lemma PrimaryByRank(reasons: set<Reason>)
    ensures FirstActive(reasons, 0) ==
            if CommRebootPending in reasons then Some(CommRebootPending)
            else if HostRebootPending in reasons then Some(HostRebootPending)
            else if RebootFailed in reasons then Some(RebootFailed)
            else if RelayGpioInitFailed in reasons then Some(RelayGpioInitFailed)
            else if RelayIoFailed in reasons then Some(RelayIoFailed)
            else if WatchdogSupervisorFailed in reasons then Some(WatchdogSupervisorFailed)
            else if CommOwnerTimeout in reasons then Some(CommOwnerTimeout)
            else if RpcNotReady in reasons then Some(RpcNotReady)
            else if IndicatorDegraded in reasons then Some(IndicatorDegraded)
            else None
  {
    assert FirstActive(reasons, 9) == None;
    assert FirstActive(reasons, 7) == if RpcNotReady in reasons then Some(RpcNotReady)
      else if IndicatorDegraded in reasons then Some(IndicatorDegraded) else None;
    assert FirstActive(reasons, 5) == if WatchdogSupervisorFailed in reasons then Some(WatchdogSupervisorFailed)
      else if CommOwnerTimeout in reasons then Some(CommOwnerTimeout) else FirstActive(reasons, 7);
    assert FirstActive(reasons, 3) == if RelayGpioInitFailed in reasons then Some(RelayGpioInitFailed)
      else if RelayIoFailed in reasons then Some(RelayIoFailed) else FirstActive(reasons, 5);
    assert FirstActive(reasons, 1) == if HostRebootPending in reasons then Some(HostRebootPending)
      else if RebootFailed in reasons then Some(RebootFailed) else FirstActive(reasons, 3);
  }

  /** The primary reason accounts for the state: none for a healthy one, else one that alone would cause it. */
  predicate Explains(primary: Option<Reason>, state: State, readySeen: bool) {
    match primary
    case None => state == Normal || state == RelayActive
    case Some(r) =>
      match state
      case RecoveryPending => IsRecovery(r)
      case Fault => IsFault(r)
      case Degraded => IsDegraded(r) || (r == RpcNotReady && readySeen)
      case Booting => r == RpcNotReady && !readySeen
      case _ => false
  }

  lemma {:induction false} PrimaryExplains(reasons: set<Reason>, gpioReady: bool, readySeen: bool, energized: bool)
    ensures var state := Derive(reasons, gpioReady, RpcNotReady !in reasons, readySeen, energized);
            Explains(FirstActive(reasons, 0), state, readySeen) <==>
            !(reasons == {RpcNotReady, IndicatorDegraded} && !readySeen) && !(reasons == {} && !gpioReady)
  {
    PrimaryByRank(reasons);
    if forall r: Reason :: r in reasons ==> r == RpcNotReady || r == IndicatorDegraded {
      assert RpcNotReady in reasons && IndicatorDegraded in reasons ==> reasons == {RpcNotReady, IndicatorDegraded};
      assert RpcNotReady !in reasons && IndicatorDegraded !in reasons ==> reasons == {};
    }
  }

  lemma {:induction false} SnapshotIsDerived(history: seq<Event>)
    ensures var h := Run(history);
            && Coherent(h)
            && h.primary == FirstActive(h.reasons, 0)
            && h.state == Derive(h.reasons, h.gpioReady, h.rpcReady, h.readySeen, h.relays + h.pulses != {})
  {
    ReasonsRefine(history);
    if history != [] {
      FactsStep(Run(history[..|history| - 1]), history[|history| - 1]);
    }
  }

  /** Only the degraded indicator and RPC not being ready are active, and GPIO and RPC were never ready together. */
  ghost predicate HiddenIndicator(history: seq<Event>) {
    && !EverReady(history)
    && forall r: Reason :: Active(history, r) <==> r == RpcNotReady || r == IndicatorDegraded
  }

  /** Nothing is active, and GPIO is not ready. */
  ghost predicate HiddenGpio(history: seq<Event>) {
    !GpioReadyAfter(history) && forall r: Reason :: !Active(history, r)
  }

  /**
   * After any history the primary reason explains the published state, exactly but for two families: the indicator
   * causes the state and RPC is shown for it, or GPIO does and no reason is shown.
   */
  lemma {:induction false} PrimaryExplainsState(history: seq<Event>)
    ensures Explains(Run(history).primary, Run(history).state, EverReady(history)) <==>
            !HiddenIndicator(history) && !HiddenGpio(history)
  {
    var h := Run(history);
    SnapshotIsDerived(history);
    FactsRefine(history);
    HiddenSets(history);
    PrimaryExplains(h.reasons, h.gpioReady, h.readySeen, h.relays + h.pulses != {});
  }

  lemma {:induction false} HiddenSets(history: seq<Event>)
    ensures HiddenIndicator(history) <==>
            !EverReady(history) && Run(history).reasons == {RpcNotReady, IndicatorDegraded}
    ensures HiddenGpio(history) <==> !GpioReadyAfter(history) && Run(history).reasons == {}
  {
    ReasonsRefine(history);
    ActiveSet(history, Run(history).reasons);
  }

  lemma ActiveSet(history: seq<Event>, reasons: set<Reason>)
    requires forall r: Reason :: r in reasons <==> Active(history, r)
    ensures HiddenIndicator(history) <==> !EverReady(history) && reasons == {RpcNotReady, IndicatorDegraded}
    ensures HiddenGpio(history) <==> !GpioReadyAfter(history) && reasons == {}
  {
  }

  lemma {:induction false} OneCall(e: Event)
    ensures Run([e]) == Apply(Initial(), e) && GpioReadyAfter([e]) == (e.SetRelayGpioReady? && e.ready)
    ensures !e.SetRelayGpioReady? ==> !EverReady([e])
    ensures forall r: Reason :: Active([e], r) <==>
                                match Decides(e, r) case Some(b) => b case None => r == RpcNotReady
  {
    assert [e][..0] == [] && [e][..1] == [e];
    OneMore([], e);
    RunStep([], e);
    assert [] + [e] == [e];
    EverReadyStep([e]);
  }

  /** A degraded indicator at boot meets the first family. */
  lemma {:induction false} IndicatorHidden()
    ensures var history := [SetIndicatorDegraded(true)];
            && HiddenIndicator(history) && Run(history).state == Degraded
            && Run(history).primary == Some(RpcNotReady)
  {
    OneCall(SetIndicatorDegraded(true));
    PrimaryByRank(Run([SetIndicatorDegraded(true)]).reasons);
  }

  /** An RPC that is ready before GPIO meets the second. */
  lemma {:induction false} GpioHidden()
    ensures var history := [SetRpcReady(true)];
            HiddenGpio(history) && Run(history).state == Booting && Run(history).primary == None
  {
    OneCall(SetRpcReady(true));
    PrimaryByRank(Run([SetRpcReady(true)]).reasons);
  }

  lemma FaultStep(h: Health, e: Event, r: Reason)
    requires Coherent(h) && IsFault(r) && r in h.reasons
    ensures r in Apply(h, e).reasons
  {
    ReasonsStep(h, e);
  }

  lemma {:induction false} RunFront(history: seq<Event>, more: seq<Event>)
    requires more != []
    ensures Run(history + more) == Apply(Run(history + more[..|more| - 1]), more[|more| - 1])
  {
    var front, e := more[..|more| - 1], more[|more| - 1];
    assert history + more == history + front + [e];
    RunStep(history + front, e);
  }

  /** Every fault reason, once active, stays active for the rest of the run. */
  lemma {:induction false} FailuresNeverClear(history: seq<Event>, more: seq<Event>, r: Reason)
    requires IsFault(r) && r in Run(history).reasons
    ensures r in Run(history + more).reasons
  {
    if more == [] {
      assert history + more == history;
    } else {
      var front := more[..|more| - 1];
      FailuresNeverClear(history, front, r);
      RunFront(history, more);
      ReasonsRefine(history + front);
      FaultStep(Run(history + front), more[|more| - 1], r);
    }
  }

  /** Once GPIO and RPC have been ready together, booting is shown again only while GPIO is not ready. */
  lemma BootingNeverRecurs(history: seq<Event>)
    requires EverReady(history) && GpioReadyAfter(history)
    ensures Run(history).state != Booting
  {
    HistoryRefinement(history);
  }
}
