/**
 * firmware/src/health.c as it runs: one static model, updated in place. A word of flags is kept as the set of its
 * flags; a channel mask is a byte, which stands for the set of its channels.
 */
module HealthModel {
  import opened Common
  import opened Masks
  import Spec = HealthSpec

  class Model {
    var relayGpioReady: bool
    var rpcReady: bool
    var readySeen: bool
    var reasons: set<Spec.Reason>
    var state: Spec.State
    var shownReasons: set<Spec.Reason>
    var primaryReason: Option<Spec.Reason>
    var relayStateMask: bv8
    var pulseMask: bv8
    var transitions: nat

    ghost function View(): Spec.Health
      reads this
    {
      Spec.Health(relayGpioReady, rpcReady, readySeen, reasons, state, shownReasons,
                  primaryReason, Channels(relayStateMask), Channels(pulseMask), transitions)
    }

    /** The calls made since the model was reset. */
    ghost var log: seq<Spec.Event>

    ghost predicate Valid()
      reads this
    {
      View() == Spec.Run(log)
    }

    /** health_init on a fresh model. */
    constructor ()
      ensures Valid() && log == []
    {
      log := [];
      relayGpioReady, rpcReady, readySeen, reasons := false, false, false, {};
      state, shownReasons, primaryReason := Spec.Booting, {}, None;
      relayStateMask, pulseMask, transitions := 0, 0, 0;
      new;
      ZeroMask(0);
      RecomputeLocked();
      transitions := 0;
    }

    method PrimaryReason(active: set<Spec.Reason>) returns (primary: Option<Spec.Reason>)
      ensures primary == Spec.FirstActive(active, 0)
    {
      var i := 0;
      while i < |Spec.PRIORITY|
        invariant 0 <= i <= |Spec.PRIORITY|
        invariant Spec.FirstActive(active, 0) == Spec.FirstActive(active, i)
      {
        if Spec.PRIORITY[i] in active {
          return Some(Spec.PRIORITY[i]);
        }
        i := i + 1;
      }
      return None;
    }

    method DeriveStateLocked(active: set<Spec.Reason>) returns (s: Spec.State)
      ensures s == Spec.Derive(active, relayGpioReady, rpcReady, readySeen,
                               Channels(relayStateMask) + Channels(pulseMask) != {})
    {
      if active * {Spec.CommRebootPending, Spec.HostRebootPending} != {} {
        return Spec.RecoveryPending;
      }
      ghost var faults := active * {Spec.RelayGpioInitFailed, Spec.RelayIoFailed, Spec.RebootFailed,
                                    Spec.WatchdogSupervisorFailed};
      assert forall r :: r in faults <==> r in active && Spec.IsFault(r);
      if active * {Spec.RelayGpioInitFailed, Spec.RelayIoFailed, Spec.RebootFailed,
                   Spec.WatchdogSupervisorFailed} != {} {
        assert exists r :: r in faults;
        return Spec.Fault;
      }
      if active * {Spec.CommOwnerTimeout, Spec.IndicatorDegraded} != {} {
        return Spec.Degraded;
      }
      if Spec.RpcNotReady in active && readySeen {
        return Spec.Degraded;
      }
      if !relayGpioReady || !rpcReady {
        return Spec.Booting;
      }
      ZeroMask(Or(relayStateMask, pulseMask));
      if Or(relayStateMask, pulseMask) != 0 {
        return Spec.RelayActive;
      }
      return Spec.Normal;
    }

    method RecomputeLocked()
      modifies `readySeen, `state, `shownReasons, `primaryReason, `transitions
      ensures log == old(log)
      ensures View() == Spec.Recompute(old(View()))
    {
      var active := reasons;
      var previous := state;
      if !rpcReady {
        active := active + {Spec.RpcNotReady};
      } else {
        active := active - {Spec.RpcNotReady};
      }
      if relayGpioReady && rpcReady {
        readySeen := true;
      }
      shownReasons := active;
      primaryReason := PrimaryReason(active);
      state := DeriveStateLocked(active);
      if state != previous {
        transitions := transitions + 1;
      }
    }

    /** The end of every call that changed the model from `before` as the event says. */
    ghost method Note(e: Spec.Event, before: Spec.Health)
      requires View() == Spec.Apply(before, e)
      modifies `log
      ensures log == old(log) + [e]
      ensures before == Spec.Run(old(log)) ==> Valid()
    {
      Spec.RunStep(log, e);
      log := log + [e];
    }

    method SetRelayGpioReady(ready: bool)
      modifies this
      ensures old(Valid()) ==> Valid()
      ensures log == old(log) + [Spec.SetRelayGpioReady(ready)]
    {
      ghost var before := View();
      relayGpioReady := ready;
      RecomputeLocked();
      Note(Spec.SetRelayGpioReady(ready), before);
    }

    method SetRpcReady(ready: bool)
      modifies this
      ensures old(Valid()) ==> Valid()
      ensures log == old(log) + [Spec.SetRpcReady(ready)]
    {
      ghost var before := View();
      rpcReady := ready;
      RecomputeLocked();
      Note(Spec.SetRpcReady(ready), before);
    }

    method SetRelayState(stateMask: bv8, pulses: bv8)
      modifies this
      ensures old(Valid()) ==> Valid()
      ensures log == old(log) + [Spec.SetRelayState(Channels(stateMask), Channels(pulses))]
      ensures pulseMask == pulses
    {
      ghost var before := View();
      relayStateMask := stateMask;
      pulseMask := pulses;
      RecomputeLocked();
      Note(Spec.SetRelayState(Channels(stateMask), Channels(pulses)), before);
    }

    /** The update of the reasons word that the remaining calls end with. */
    method Store(word: set<Spec.Reason>)
      modifies this
      ensures log == old(log)
      ensures View() == Spec.Recompute(old(View()).(latched := word))
    {
      reasons := word;
      RecomputeLocked();
    }

    method Latch(r: Spec.Reason, on: bool)
      modifies this
      ensures log == old(log)
      ensures View() == Spec.Recompute(old(View()).(latched := Spec.Put(old(View()).latched, r, on)))
    {
      if on {
        Store(reasons + {r});
      } else {
        Store(reasons - {r});
      }
    }

    method SetCommOwnerTimedOut(timedOut: bool)
      modifies this
      ensures old(Valid()) ==> Valid()
      ensures log == old(log) + [Spec.SetCommOwnerTimedOut(timedOut)]
    {
      ghost var before := View();
      Latch(Spec.CommOwnerTimeout, timedOut);
      Note(Spec.SetCommOwnerTimedOut(timedOut), before);
    }

    method SetCommRebootPending(pending: bool)
      modifies this
      ensures old(Valid()) ==> Valid()
      ensures log == old(log) + [Spec.SetCommRebootPending(pending)]
    {
      ghost var before := View();
      Latch(Spec.CommRebootPending, pending);
      Note(Spec.SetCommRebootPending(pending), before);
    }

    method SetHostRebootPending(pending: bool)
      modifies this
      ensures old(Valid()) ==> Valid()
      ensures log == old(log) + [Spec.SetHostRebootPending(pending)]
    {
      ghost var before := View();
      Latch(Spec.HostRebootPending, pending);
      Note(Spec.SetHostRebootPending(pending), before);
    }

    method SetIndicatorDegraded(degraded: bool)
      modifies this
      ensures old(Valid()) ==> Valid()
      ensures log == old(log) + [Spec.SetIndicatorDegraded(degraded)]
    {
      ghost var before := View();
      Latch(Spec.IndicatorDegraded, degraded);
      Note(Spec.SetIndicatorDegraded(degraded), before);
    }

    method RecordRelayGpioInitFailed()
      modifies this
      ensures old(Valid()) ==> Valid()
      ensures log == old(log) + [Spec.RecordRelayGpioInitFailed]
    {
      ghost var before := View();
      Latch(Spec.RelayGpioInitFailed, true);
      Note(Spec.RecordRelayGpioInitFailed, before);
    }

    method RecordRelayIoError()
      modifies this
      ensures old(Valid()) ==> Valid()
      ensures log == old(log) + [Spec.RecordRelayIoError]
    {
      ghost var before := View();
      Latch(Spec.RelayIoFailed, true);
      Note(Spec.RecordRelayIoError, before);
    }

    method RecordRebootFailed()
      modifies this
      ensures old(Valid()) ==> Valid()
      ensures log == old(log) + [Spec.RecordRebootFailed]
    {
      ghost var before := View();
      Store(reasons + {Spec.RebootFailed} - {Spec.CommRebootPending, Spec.HostRebootPending});
      Note(Spec.RecordRebootFailed, before);
    }

    method RecordWatchdogSupervisorFailed()
      modifies this
      ensures old(Valid()) ==> Valid()
      ensures log == old(log) + [Spec.RecordWatchdogSupervisorFailed]
    {
      ghost var before := View();
      Latch(Spec.WatchdogSupervisorFailed, true);
      Note(Spec.RecordWatchdogSupervisorFailed, before);
    }
  }
}
