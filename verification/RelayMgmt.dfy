/** The handlers of firmware/src/relay_mgmt.c that can reset the board or renew the lease, over the control plane. */
module RelayMgmt {
  import opened Masks
  import opened Firmware
  import H = HealthSpec
  import Spec = RelaySpec
  import RelayControl
  import R = FirmwareReset

  /** What the off-all of a work handler does to the fields seen here. */
  lemma HostOffFields(cfg: Spec.Config, s: Sys, kind: ResetKind, writes: seq<Spec.Write>)
    requires Enabled(s, Host(HostOff(kind, writes)))
    ensures var t := NextHost(cfg, s, HostOff(kind, writes));
            var (core, ret) := Spec.SetAll(cfg, s.core, s.now, {}, writes);
            && t.host == (if kind == Bootsel then s.host else s.host.Finish())
            && t.bootsel == (if kind == Bootsel then s.bootsel.Finish() else s.bootsel)
            && t.core == (if ret == Spec.Success then core else Spec.Tell(core, H.RecordRebootFailed))
            && t.mode == s.mode && t.starts == s.starts
            && ResetTails(t, kind) == ResetTails(s, kind) + (if ret == Spec.Success then 1 else 0)
  {
  }

  lemma HostResetFields(cfg: Spec.Config, s: Sys, kind: ResetKind, back: bool)
    requires Enabled(s, Host(HostReset(kind, back)))
    ensures var t := NextHost(cfg, s, HostReset(kind, back));
            && t.host == s.host && t.bootsel == s.bootsel
            && t.core == (if back then Spec.Tell(s.core, H.RecordRebootFailed) else s.core)
            && t.mode == (if back then s.mode else Reset(kind))
  {
  }

  /** What a request does to the same fields. */
  lemma HostRequestFields(cfg: Spec.Config, s: Sys, kind: ResetKind, scheduled: bool)
    requires Enabled(s, Host(HostRequest(kind, scheduled)))
    ensures var t, at := NextHost(cfg, s, HostRequest(kind, scheduled)), s.now + REBOOT_PENDING_INDICATION_MS;
            && t.host == (if scheduled && kind != Bootsel then s.host.Schedule(at) else s.host)
            && t.bootsel == (if scheduled && kind == Bootsel then s.bootsel.Schedule(at) else s.bootsel)
            && t.core == Spec.Tell(s.core, if scheduled then H.SetHostRebootPending(true) else H.RecordRebootFailed)
            && t.mode == s.mode
  {
  }

  class Handlers {
    const control: RelayControl.Control
    var rebootWork: Spec.Work
    var bootselWork: Spec.Work
    var mode: Mode

    constructor (control: RelayControl.Control)
      ensures this.control == control && rebootWork == Spec.IDLE && bootselWork == Spec.IDLE && mode == Running
    {
      this.control := control;
      rebootWork, bootselWork, mode := Spec.IDLE, Spec.IDLE, Running;
    }

    ghost predicate Valid()
      reads this, control
    {
      control.Valid() && this !in control.Parts()
    }

    /** The fields are those of a state of the step system in which no publication is under way. */
    ghost predicate Agrees(s: Sys)
      requires Valid()
      reads this, control, control.Parts()
    {
      s.core == control.View() && s.host == rebootWork && s.bootsel == bootselWork && s.mode == mode
    }

    method ScheduleReset(kind: ResetKind, now: nat)
      requires Valid()
      modifies this`rebootWork, this`bootselWork, control.health
      ensures Valid() && control.View() == Spec.Tell(old(control.View()), H.SetHostRebootPending(true))
      ensures var at := now + REBOOT_PENDING_INDICATION_MS;
              if kind == Bootsel then rebootWork == old(rebootWork) && bootselWork == old(bootselWork).Schedule(at)
              else bootselWork == old(bootselWork) && rebootWork == old(rebootWork).Schedule(at)
    {
      if kind == Bootsel {
        bootselWork := bootselWork.Schedule(now + REBOOT_PENDING_INDICATION_MS);
      } else {
        rebootWork := rebootWork.Schedule(now + REBOOT_PENDING_INDICATION_MS);
      }
      control.health.SetHostRebootPending(true);
    }

    method RecordFailed()
      requires Valid()
      modifies control.health
      ensures Valid() && control.View() == Spec.Tell(old(control.View()), H.RecordRebootFailed)
    {
      control.health.RecordRebootFailed();
    }

    /** reboot_handler and bootsel_handler, once the request is decoded; true for an accepted request. */
    method RequestHandler(kind: ResetKind, now: nat, scheduled: bool, ghost s: Sys) returns (ok: bool)
      requires Valid() && Agrees(s) && s.now == now && Enabled(s, Host(HostRequest(kind, scheduled)))
      modifies this, control.health
      ensures Valid() && Agrees(NextHost(control.cfg, s, HostRequest(kind, scheduled))) && ok == scheduled
    {
      HostRequestFields(control.cfg, s, kind, scheduled);
      if !scheduled {
        RecordFailed();
        return false;
      }
      ScheduleReset(kind, now);
      return true;
    }

    /** The first half of reboot_work_handler and bootsel_work_handler; only if it succeeds the reset follows. */
    method OffAll(kind: ResetKind, now: nat, writes: seq<Spec.Write>, at: int, ghost s: Sys) returns (ok: bool)
      requires Valid() && Agrees(s) && s.now == now && Enabled(s, Host(HostOff(kind, writes)))
      modifies this`rebootWork, this`bootselWork, control.Parts()
      ensures Valid() && ok == (Spec.SetAll(control.cfg, s.core, now, {}, writes).1 == Spec.Success)
      ensures var t := NextHost(control.cfg, s, HostOff(kind, writes));
              Agrees(t.(core := Spec.Settle(t.core, at)))
    {
      HostOffFields(control.cfg, s, kind, writes);
      FinishWork(kind);
      ok := RelayOffAll(now, writes, at);
    }

    method FinishWork(kind: ResetKind)
      modifies this`rebootWork, this`bootselWork
      ensures if kind == Bootsel then rebootWork == old(rebootWork) && bootselWork == old(bootselWork).Finish()
              else bootselWork == old(bootselWork) && rebootWork == old(rebootWork).Finish()
    {
      if kind == Bootsel {
        bootselWork := bootselWork.Finish();
      } else {
        rebootWork := rebootWork.Finish();
      }
    }

    /** All relays off, or the failure recorded. */
    method RelayOffAll(now: nat, writes: seq<Spec.Write>, at: int) returns (ok: bool)
      requires Valid() && |writes| == 6
      modifies control.Parts()
      ensures Valid()
      ensures var (core, ret) := Spec.SetAll(control.cfg, old(control.View()), now, {}, writes);
              && ok == (ret == Spec.Success)
              && control.View() == Spec.Settle(if ok then core else Spec.Tell(core, H.RecordRebootFailed), at)
    {
      ghost var c := control.View();
      ZeroMask(0);
      var ret := control.RelaySetAll(now, 0, writes, at);
      ok := ret == Spec.Success;
      if !ok {
        OffFailed(control.cfg, c, now, writes, at);
        RecordFailed();
      }
    }

    /** The second half, with USB detached; `back` says that the reset call returned. */
    method ResetBoard(kind: ResetKind, back: bool, ghost s: Sys)
      requires Valid() && Agrees(s) && Enabled(s, Host(HostReset(kind, back)))
      modifies this`mode, control.health
      ensures Valid() && Agrees(NextHost(control.cfg, s, HostReset(kind, back)))
    {
      HostResetFields(control.cfg, s, kind, back);
      if back {
        RecordFailed();
      } else {
        mode := Reset(kind);
      }
    }

    /** The whole handler, when nothing else runs in between. */
    method WorkHandler(kind: ResetKind, now: nat, writes: seq<Spec.Write>, back: bool, at: int, ghost s: Sys)
      requires Valid() && Agrees(s) && s.now == now && Enabled(s, Host(HostOff(kind, writes)))
      modifies this, control.Parts()
      ensures Valid()
      ensures var u := NextHost(control.cfg, s, HostOff(kind, writes));
              var v := u.(core := Spec.Settle(u.core, at));
              if Spec.SetAll(control.cfg, s.core, now, {}, writes).1 == Spec.Success
              then Enabled(v, Host(HostReset(kind, back))) && Agrees(NextHost(control.cfg, v, HostReset(kind, back)))
              else Agrees(v)
    {
      ghost var u := NextHost(control.cfg, s, HostOff(kind, writes));
      var ok := OffAll(kind, now, writes, at, s);
      if ok {
        OffThenReset(control.cfg, s, kind, writes, back, at);
        ResetBoard(kind, back, u.(core := Spec.Settle(u.core, at)));
      }
    }

    method HeartbeatHandler(now: nat, at: int, ghost s: Sys)
      requires Valid() && Agrees(s) && s.now == now && Enabled(s, Cmd(HeartbeatStep)) && control.health.Valid()
      modifies control.Parts()
      ensures Valid() && control.health.Valid()
      ensures var t := NextCommand(control.cfg, s, HeartbeatStep);
              Agrees(t.(core := Spec.Settle(Spec.Refresh(t.core), at)))
    {
      control.RelayCommLossRenew(now, at);
    }
  }

  /** A failed off-all reports nothing, so recording its failure is all that is left to do. */
  lemma OffFailed(cfg: Spec.Config, c: Spec.Core, now: nat, writes: seq<Spec.Write>, at: int)
    requires Spec.Shaped(c.relay) && |writes| == Spec.CHANNELS && c.board.pending == []
    requires Spec.SetAll(cfg, c, now, {}, writes).1 != Spec.Success
    ensures var d := Spec.SetAll(cfg, c, now, {}, writes).0;
            Spec.Settle(Spec.Tell(d, H.RecordRebootFailed), at) == Spec.Tell(Spec.Settle(d, at), H.RecordRebootFailed)
  {
  }

  /** A successful off-all is a report, whose publication leaves the relays alone. */
  lemma OffSettles(cfg: Spec.Config, c: Spec.Core, now: nat, writes: seq<Spec.Write>, at: int)
    requires Spec.Shaped(c.relay) && |writes| == Spec.CHANNELS && c.board.pending == []
    requires Spec.SetAll(cfg, c, now, {}, writes).1 == Spec.Success
    ensures var d := Spec.SetAll(cfg, c, now, {}, writes).0;
            Spec.Shaped(d.relay) && Spec.Settle(d, at).relay == d.relay
  {
    var d := Spec.SetAll(cfg, c, now, {}, writes).0;
    R.SetAllDriven(cfg, c, now, {}, writes, 0);
    Spec.ReportSettles(d, d.relay.on, d.relay.pulsing, Spec.PulseTimings(d.relay, d.relay.pulsing, now), at);
  }

  /** The reset can follow a successful off-all. */
  lemma OffThenReset(cfg: Spec.Config, s: Sys, kind: ResetKind, writes: seq<Spec.Write>, back: bool, at: int)
    requires Enabled(s, Host(HostOff(kind, writes))) && s.core.board.pending == []
    requires Spec.SetAll(cfg, s.core, s.now, {}, writes).1 == Spec.Success
    ensures var u := NextHost(cfg, s, HostOff(kind, writes));
            Enabled(u.(core := Spec.Settle(u.core, at)), Host(HostReset(kind, back)))
  {
    HostOffFields(cfg, s, kind, writes);
    OffSettles(cfg, s.core, s.now, writes, at);
  }
}
