/** The connection methods of host/rp2350_relay_6ch/daemon.py over its fields, each against the steps of Recovery. */
module Daemon {
  import opened Common
  import opened Recovery

  datatype Request = DaemonStatus | Device(command: Command)

  datatype Answer = Status(link: Link) | NotConnected | TransportFailed | Refused | Result

  /** A command from taking the lock to its end; the last two happen only for an accepted reboot. */
  function WorkerActions(command: Command, reply: Reply): seq<Action> {
    [WorkerTakes(command), WorkerDone(reply), EnterFlag, EnterRest]
  }

  class RelayDaemon {
    var client: Option<nat>
    var connected: bool
    var currentPort: Option<string>
    var reconnectAttempts: nat
    var rebootRecovery: bool
    var startedAt: Option<int>
    var preStatus: Option<Option<int>>
    var instance: Option<string>
    var missingSeen: bool
    var stop: bool
    var fatal: bool
    var clock: int
    var opens: nat
    ghost var closed: set<nat>

    constructor ()
      ensures View() == START
    {
      client, connected, currentPort, reconnectAttempts := None, false, None, 0;
      rebootRecovery, startedAt, preStatus, instance, missingSeen := false, None, None, None, false;
      stop, fatal, clock, opens, closed := false, false, 0, 0, {};
    }

    function Fields(): Link
      reads this
    {
      Link(client, connected, currentPort, reconnectAttempts, rebootRecovery, startedAt, preStatus, instance,
           missingSeen)
    }

    /** The state between two rounds of every thread. */
    ghost function View(): Sys
      reads this
    {
      Sys(Fields(), Waiting, Nobody, clock, opens, closed, {}, stop, fatal)
    }

    function Rest(): (int, nat, bool, bool)
      reads this
    {
      (clock, opens, stop, fatal)
    }

    ghost function Held(): set<nat>
      reads this
    {
      if client.Some? then {client.value} else {}
    }

    method ClearRecovery()
      modifies `rebootRecovery, `startedAt, `preStatus, `instance, `missingSeen
      ensures !rebootRecovery && startedAt == None && preStatus == None && instance == None && !missingSeen
    {
      rebootRecovery := false;
      startedAt := None;
      preStatus := None;
      instance := None;
      missingSeen := false;
    }

    method AdoptProbe(probe: nat, port: string)
      modifies this
      ensures Fields() == Adopt(probe, port) && Rest() == old(Rest()) && closed == old(closed) + old(Held())
    {
      closed := closed + Held();
      client := Some(probe);
      connected := true;
      currentPort := Some(port);
      reconnectAttempts := 0;
      ClearRecovery();
    }

    method MarkDisconnected(countAttempt: bool)
      modifies this
      ensures Fields() == Mark(old(Fields()), countAttempt) && Rest() == old(Rest())
      ensures closed == old(closed) + old(Held())
    {
      closed := closed + Held();
      client := None;
      connected := false;
      currentPort := None;
      if countAttempt {
        reconnectAttempts := reconnectAttempts + 1;
      }
      ClearRecovery();
    }

    method EnterRebootRecovery(taken: nat, uptime: Option<int>, usbInstance: Option<string>)
      modifies this
      ensures Fields() == Enter(old(Fields()), clock, uptime, usbInstance) && Rest() == old(Rest())
      ensures closed == old(closed) + {taken}
    {
      client := None;
      connected := false;
      currentPort := None;
      rebootRecovery := true;
      startedAt := Some(clock);
      preStatus := Some(uptime);
      instance := usbInstance;
      missingSeen := false;
      closed := closed + {taken};
    }

    method RecordRebootReconnectFailure()
      modifies `reconnectAttempts
      ensures Fields() == Record(old(Fields()))
    {
      reconnectAttempts := reconnectAttempts + 1;
    }

    method FailReconnect()
      modifies `fatal, `stop
      ensures fatal && stop
    {
      fatal, stop := true, true;
    }

    /** A probe: what it returns, and the client it opened, closed again when it was not ready. */
    method ProbeReady(probed: Probed)
      modifies `opens, `closed
      ensures opens == old(opens) + if probed.Ready? || probed.hadClient then 1 else 0
      ensures closed == old(closed) + if probed.Failed? && probed.hadClient then {old(opens)} else {}
    {
      match probed {
        case Ready(_) => opens := opens + 1;
        case Failed(hadClient, _) =>
          if hadClient {
            closed := closed + {opens};
            opens := opens + 1;
          }
      }
    }

    method FinishPlain(port: string, probed: Probed)
      requires client.None?
      modifies this
      ensures View() == Do(Do(old(View()).(attempt := PlainPort(port)), Probe(probed)), Finish)
    {
      PlainProbeEnds(View().(attempt := PlainPort(port)), probed);
      var probe := opens;
      ProbeReady(probed);
      match probed {
        case Ready(_) => AdoptProbe(probe, port);
        case Failed(_, isFatal) =>
          if isFatal {
            FailReconnect();
          } else {
            MarkDisconnected(true);
          }
      }
    }

    method ReconnectOnce(selected: Selected, probed: Probed)
      requires client.None?
      modifies this
      ensures View() == Run(old(View()).(attempt := Plain), [Select(selected), Probe(probed), Finish])
    {
      ghost var s := View().(attempt := Plain);
      PlainRound(s, selected, probed);
      assert closed + {} == closed;
      match selected {
        case NoDevice => MarkDisconnected(true);
        case Misconfigured => FailReconnect();
        case Port(port) => FinishPlain(port, probed);
      }
    }

    /** The probe of a changed instance, adopted if its uptime is fresh. */
    method FinishAfterReboot(port: string, candidate: Option<string>, probed: Probed)
      requires client.None?
      modifies this
      ensures View() == Do(Do(old(View()).(attempt := RebootProbing(port, candidate, old(clock))), Probe(probed)),
                           Finish)
    {
      RebootProbeEnds(View().(attempt := RebootProbing(port, candidate, clock)), probed);
      var probe := opens;
      ProbeReady(probed);
      if probed.Failed? {
        if probed.fatal {
          FailReconnect();
        } else {
          RecordRebootReconnectFailure();
        }
        return;
      }
      if !Fresh(preStatus, probed.uptime) {
        closed := closed + {probe};
        RecordRebootReconnectFailure();
        return;
      }
      AdoptProbe(probe, port);
    }

    method ReconnectAfterRebootOnce(selected: Selected, candidate: Option<string>, probed: Probed)
      requires client.None?
      modifies this
      ensures View() == Run(old(View()).(attempt := Reboot),
                            [CheckTime, GiveUp, Select(selected), CheckInstance(candidate), Probe(probed), Finish])
    {
      RebootHead(View().(attempt := Reboot), selected, candidate, probed);
      if startedAt.None? {
        MarkDisconnected(false);
        return;
      }
      if clock - startedAt.value < RECOVERY_MIN_MS {
        return;
      }
      if selected.NoDevice? {
        RecordRebootReconnectFailure();
        return;
      }
      if selected.Misconfigured? {
        FailReconnect();
        return;
      }
      if candidate.None? {
        missingSeen := true;
      }
      if instance.Some? && candidate == instance && !missingSeen {
        return;
      }
      FinishAfterReboot(selected.port, candidate, probed);
    }

    /** One round of the reconnect thread. */
    method ReconnectRound(selected: Selected, candidate: Option<string>, probed: Probed)
      requires Linked(Fields()) && !stop
      modifies this
      ensures View() == Run(old(View()), [Look, Decide, CheckTime, GiveUp, Select(selected), CheckInstance(candidate),
                                          Probe(probed), Finish])
    {
      ghost var s := View();
      WholeRound(s, selected, candidate, probed);
      if connected {
        return;
      }
      if rebootRecovery {
        ReconnectAfterRebootOnce(selected, candidate, probed);
        return;
      }
      ReconnectOnce(selected, probed);
    }

    method HeartbeatOnce(ok: bool)
      modifies this
      ensures View() == Run(old(View()), [HeartTakes, HeartDone(ok)])
    {
      HeartRound(View(), ok);
      if client.None? || !connected {
        return;
      }
      if !ok {
        MarkDisconnected(false);
      }
    }

    /** A request, carried out on the connected device or answered from the fields. */
    method HandleRequest(request: Request, reply: Reply) returns (answer: Answer)
      modifies this
      ensures View() == match request
                        case DaemonStatus => old(View())
                        case Device(command) => Run(old(View()), WorkerActions(command, reply))
      ensures request.DaemonStatus? ==> answer == Status(old(Fields()))
      ensures request.Device? && (old(client) == None || !old(connected)) ==> answer == NotConnected
      ensures request.Device? && old(client) != None && old(connected) ==>
                && (answer == TransportFailed <==> reply.TransportError?)
                && (answer == Refused <==> reply.OtherError?)
                && (answer == Result <==> reply.Accepted?)
    {
      if request.DaemonStatus? {
        return Status(Fields());
      }
      WorkerRound(View(), request.command, reply);
      if client.None? || !connected {
        return NotConnected;
      }
      var taken := client.value;
      match reply {
        case TransportError =>
          MarkDisconnected(false);
          return TransportFailed;
        case OtherError => return Refused;
        case Accepted(uptime, usbInstance) =>
          match request.command {
            case Bootsel => MarkDisconnected(false);
            case RebootCommand => EnterRebootRecovery(taken, uptime, usbInstance);
            case Other =>
          }
          return Result;
      }
    }
  }

  // ----- What the action lists come to -----

  function Do(s: Sys, a: Action): Sys {
    if Enabled(s, a) then Step(s, a) else s
  }

  lemma {:induction false} RunDo(s: Sys, a: Action, rest: seq<Action>)
    ensures Run(s, [a] + rest) == Run(Do(s, a), rest)
  {
    assert ([a] + rest)[1..] == rest;
  }

  lemma {:induction false} PlainRound(s: Sys, selected: Selected, probed: Probed)
    ensures Run(s, [Select(selected), Probe(probed), Finish]) == Do(Do(Do(s, Select(selected)), Probe(probed)), Finish)
  {
    RunDo(s, Select(selected), [Probe(probed), Finish]);
    RunDo(Do(s, Select(selected)), Probe(probed), [Finish]);
    RunDo(Do(Do(s, Select(selected)), Probe(probed)), Finish, []);
  }

  lemma {:induction false} RebootRound(s: Sys, selected: Selected, candidate: Option<string>, probed: Probed)
    ensures Run(s, [CheckTime, GiveUp, Select(selected), CheckInstance(candidate), Probe(probed), Finish])
            == Do(Do(Do(Do(Do(Do(s, CheckTime), GiveUp), Select(selected)), CheckInstance(candidate)), Probe(probed)),
                  Finish)
  {
    var s0 := Do(s, CheckTime);
    var s1 := Do(s0, GiveUp);
    var s2 := Do(s1, Select(selected));
    RunDo(s, CheckTime, [GiveUp, Select(selected), CheckInstance(candidate), Probe(probed), Finish]);
    RunDo(s0, GiveUp, [Select(selected), CheckInstance(candidate), Probe(probed), Finish]);
    RunDo(s1, Select(selected), [CheckInstance(candidate), Probe(probed), Finish]);
    RunDo(s2, CheckInstance(candidate), [Probe(probed), Finish]);
    RunDo(Do(s2, CheckInstance(candidate)), Probe(probed), [Finish]);
    RunDo(Do(Do(s2, CheckInstance(candidate)), Probe(probed)), Finish, []);
  }

  /** A round during recovery, up to its probe. */
  lemma {:induction false} RebootHead(s: Sys, selected: Selected, candidate: Option<string>, probed: Probed)
    requires s.attempt.Reboot? && !Between(s)
    ensures var idle := s.(attempt := Waiting);
            Run(s, [CheckTime, GiveUp, Select(selected), CheckInstance(candidate), Probe(probed), Finish]) ==
            if s.link.started.None? then idle.(link := Mark(s.link, false))
            else if s.clock - s.link.started.value < RECOVERY_MIN_MS then idle
            else
              match selected
              case NoDevice => idle.(link := Record(s.link))
              case Misconfigured => idle.(fatal := true, stop := true)
              case Port(port) =>
                var link := s.link.(missing := s.link.missing || candidate.None?);
                if Unchanged(s.link, candidate) then idle.(link := link)
                else
                  Do(Do(s.(link := link, attempt := RebootProbing(port, candidate, s.clock)), Probe(probed)), Finish)
  {
    RebootRound(s, selected, candidate, probed);
  }

  lemma {:induction false} NothingToDo(s: Sys, actions: seq<Action>)
    requires forall i :: 0 <= i < |actions| ==> Do(s, actions[i]) == s
    ensures Run(s, actions) == s
    decreases |actions|
  {
    if actions != [] {
      assert Do(s, actions[0]) == s;
      NothingToDo(s, actions[1..]);
    }
  }

  /** The state after a probe has used a number for its client, and closed it again if asked to. */
  function Counted(s: Sys, used: bool, shut: bool): Sys {
    s.(attempt := Waiting, next := s.next + if used then 1 else 0, closed := s.closed + if shut then {s.next} else {})
  }

  lemma RebootProbeEnds(s: Sys, probed: Probed)
    requires s.attempt.RebootProbing? && s.link.client.None? && !Between(s)
    ensures Do(Do(s, Probe(probed)), Finish) ==
            match probed
            case Ready(uptime) =>
              if Fresh(s.link.pre, uptime) then Counted(s, true, false).(link := Adopt(s.next, s.attempt.port))
              else Counted(s, true, true).(link := Record(s.link))
            case Failed(hadClient, isFatal) =>
              if isFatal then Counted(s, hadClient, hadClient).(fatal := true, stop := true)
              else Counted(s, hadClient, hadClient).(link := Record(s.link))
  {
    assert s.closed + {} == s.closed;
  }

  lemma PlainProbeEnds(s: Sys, probed: Probed)
    requires s.attempt.PlainPort? && s.link.client.None? && !Between(s)
    ensures Do(Do(s, Probe(probed)), Finish) ==
            match probed
            case Ready(_) => Counted(s, true, false).(link := Adopt(s.next, s.attempt.port))
            case Failed(hadClient, isFatal) =>
              if isFatal then Counted(s, hadClient, hadClient).(fatal := true, stop := true)
              else Counted(s, hadClient, hadClient).(link := Mark(s.link, true))
  {
    assert s.closed + {} == s.closed;
  }

  /** Of a round's actions only these three matter outside recovery. */
  lemma {:induction false} PlainSkips(s: Sys, selected: Selected, candidate: Option<string>, probed: Probed)
    requires s.attempt.Plain?
    ensures Run(s, [CheckTime, GiveUp, Select(selected), CheckInstance(candidate), Probe(probed), Finish])
            == Run(s, [Select(selected), Probe(probed), Finish])
  {
    var s1 := Do(s, Select(selected));
    RunDo(s, CheckTime, [GiveUp, Select(selected), CheckInstance(candidate), Probe(probed), Finish]);
    RunDo(s, GiveUp, [Select(selected), CheckInstance(candidate), Probe(probed), Finish]);
    RunDo(s, Select(selected), [CheckInstance(candidate), Probe(probed), Finish]);
    RunDo(s1, CheckInstance(candidate), [Probe(probed), Finish]);
    RunDo(s, Select(selected), [Probe(probed), Finish]);
  }

  lemma {:induction false} WholeRound(s: Sys, selected: Selected, candidate: Option<string>, probed: Probed)
    requires s.attempt.Waiting? && !s.stop
    ensures Run(s, [Look, Decide, CheckTime, GiveUp, Select(selected), CheckInstance(candidate), Probe(probed), Finish])
            == if s.link.connected then s
               else if s.link.recovery then
                 Run(s.(attempt := Reboot),
                     [CheckTime, GiveUp, Select(selected), CheckInstance(candidate), Probe(probed), Finish])
               else Run(s.(attempt := Plain), [Select(selected), Probe(probed), Finish])
  {
    var tail := [CheckTime, GiveUp, Select(selected), CheckInstance(candidate), Probe(probed), Finish];
    RunDo(s, Look, [Decide] + tail);
    if s.link.connected {
      NothingToDo(s, [Decide] + tail);
    } else {
      RunDo(s.(attempt := Looked), Decide, tail);
      if !s.link.recovery {
        PlainSkips(s.(attempt := Plain), selected, candidate, probed);
      }
    }
  }

  lemma {:induction false} HeartRound(s: Sys, ok: bool)
    ensures Run(s, [HeartTakes, HeartDone(ok)]) == Do(Do(s, HeartTakes), HeartDone(ok))
  {
    RunDo(s, HeartTakes, [HeartDone(ok)]);
    RunDo(Do(s, HeartTakes), HeartDone(ok), []);
  }

  lemma {:induction false} WorkerRound(s: Sys, command: Command, reply: Reply)
    ensures Run(s, WorkerActions(command, reply))
            == Do(Do(Do(Do(s, WorkerTakes(command)), WorkerDone(reply)), EnterFlag), EnterRest)
  {
    var s1 := Do(s, WorkerTakes(command));
    RunDo(s, WorkerTakes(command), [WorkerDone(reply), EnterFlag, EnterRest]);
    RunDo(s1, WorkerDone(reply), [EnterFlag, EnterRest]);
    RunDo(Do(s1, WorkerDone(reply)), EnterFlag, [EnterRest]);
    RunDo(Do(Do(s1, WorkerDone(reply)), EnterFlag), EnterRest, []);
  }

  // ----- Whole rounds, written out -----

  /** No thread is in the middle of anything, and the connection fields agree. */
  predicate Resting(s: Sys) {
    && s.attempt.Waiting? && s.holder.Nobody?
    && (s.link.connected <==> s.link.client.Some?) && (s.link.port.Some? <==> s.link.client.Some?)
  }

  /** The state after a round, but for its outcome: how many clients it opened, and whether the last one was closed. */
  predicate RestsAfter(s: Sys, t: Sys, opens: nat, shut: bool) {
    && t.attempt.Waiting? && t.holder.Nobody? && t.clock == s.clock && t.lost == s.lost
    && t.next == s.next + opens && t.closed == s.closed + (if shut then {s.next} else {})
  }

  /** A probe that ended without being adopted, and what it comes to for the stop flags. */
  predicate ProbeFailed(s: Sys, t: Sys, probed: Probed)
    requires probed.Failed?
  {
    && RestsAfter(s, t, if probed.hadClient then 1 else 0, probed.hadClient)
    && t.stop == probed.fatal && t.fatal == (s.fatal || probed.fatal)
  }

  lemma {:induction false} PlainRoundIs(s: Sys, t: Sys, selected: Selected, candidate: Option<string>, probed: Probed)
    requires Resting(s) && !s.stop && !s.link.connected && !s.link.recovery
    requires t == Run(s, [Look, Decide, CheckTime, GiveUp, Select(selected), CheckInstance(candidate), Probe(probed),
                          Finish])
    ensures var missed := Link(None, false, None, s.link.attempts + 1, false, None, None, None, false);
            match selected
            case NoDevice => RestsAfter(s, t, 0, false) && t.link == missed && !t.stop && t.fatal == s.fatal
            case Misconfigured => RestsAfter(s, t, 0, false) && t.link == s.link && t.stop && t.fatal
            case Port(port) =>
              match probed
              case Ready(_) =>
                && RestsAfter(s, t, 1, false) && !t.stop && t.fatal == s.fatal
                && t.link == Link(Some(s.next), true, Some(port), 0, false, None, None, None, false)
              case Failed(_, isFatal) =>
                ProbeFailed(s, t, probed) && t.link == if isFatal then s.link else missed
  {
    var s1 := s.(attempt := Plain);
    WholeRound(s, selected, candidate, probed);
    PlainRound(s1, selected, probed);
    if selected.Port? {
      PlainProbeEnds(s1.(attempt := PlainPort(selected.port)), probed);
    }
    assert s.closed + {} == s.closed;
  }

  /** The uptimes are known and have not gone down. */
  predicate Stale(pre: Option<Option<int>>, uptime: Option<int>) {
    pre.Some? && pre.value.Some? && uptime.Some? && uptime.value >= pre.value.value
  }

  lemma {:induction false} RecoveryRoundIs(s: Sys, t: Sys, selected: Selected, candidate: Option<string>,
                                           probed: Probed)
    requires Resting(s) && !s.stop && !s.link.connected && s.link.recovery
    requires t == Run(s, [Look, Decide, CheckTime, GiveUp, Select(selected), CheckInstance(candidate), Probe(probed),
                          Finish])
    ensures var missing := s.link.missing || candidate == None;
            if s.link.started == None then
              && RestsAfter(s, t, 0, false) && !t.stop && t.fatal == s.fatal
              && t.link == Link(None, false, None, s.link.attempts, false, None, None, None, false)
            else if s.clock < s.link.started.value + 1500 then t == s
            else
              match selected
              case NoDevice => t == s.(link := s.link.(attempts := s.link.attempts + 1))
              case Misconfigured => t == s.(stop := true, fatal := true)
              case Port(port) =>
                if s.link.instance != None && candidate == s.link.instance && !missing then
                  t == s.(link := s.link.(missing := missing))
                else
                  match probed
                  case Ready(uptime) =>
                    && !t.stop && t.fatal == s.fatal
                    && RestsAfter(s, t, 1, Stale(s.link.pre, uptime))
                    && t.link == (if Stale(s.link.pre, uptime)
                                  then s.link.(missing := missing, attempts := s.link.attempts + 1)
                                  else Link(Some(s.next), true, Some(port), 0, false, None, None, None, false))
                  case Failed(_, isFatal) =>
                    && ProbeFailed(s, t, probed)
                    && t.link == s.link.(missing := missing,
                                         attempts := s.link.attempts + (if isFatal then 0 else 1))
  {
    var s1 := s.(attempt := Reboot);
    WholeRound(s, selected, candidate, probed);
    RebootHead(s1, selected, candidate, probed);
    if selected.Port? {
      var link := s.link.(missing := s.link.missing || candidate.None?);
      RebootProbeEnds(s1.(link := link, attempt := RebootProbing(selected.port, candidate, s.clock)), probed);
    }
    assert s.closed + {} == s.closed;
  }

  /** A command that nothing disturbs, by its reply. */
  lemma {:induction false} CommandIs(s: Sys, t: Sys, command: Command, reply: Reply)
    requires Resting(s) && s.link.connected && t == Run(s, WorkerActions(command, reply))
    ensures var left := Link(None, false, None, s.link.attempts, false, None, None, None, false);
            var closed := s.closed + {s.link.client.value};
            match reply
            case TransportError => t == s.(link := left, closed := closed)
            case OtherError => t == s
            case Accepted(uptime, instance) =>
              match command
              case Other => t == s
              case Bootsel => t == s.(link := left, closed := closed)
              case RebootCommand =>
                t == s.(link := Link(None, false, None, s.link.attempts, true, Some(s.clock), Some(uptime), instance,
                                     false), closed := closed)
  {
    WorkerRound(s, command, reply);
  }

  /** A heartbeat that nothing disturbs. */
  lemma {:induction false} HeartbeatIs(s: Sys, t: Sys, ok: bool)
    requires Resting(s) && t == Run(s, [HeartTakes, HeartDone(ok)])
    ensures t == if !s.link.connected || ok then s
                 else s.(link := Link(None, false, None, s.link.attempts, false, None, None, None, false),
                         closed := s.closed + {s.link.client.value})
  {
    HeartRound(s, ok);
  }
}
