/**
 * How the daemon of host/rp2350_relay_6ch/daemon.py holds, loses and regains its relay controller: the reconnect
 * thread in small steps, interleaved with commands, heartbeats and shutdown, which share the command lock.
 */
module Recovery {
  import opened Common

  const RECOVERY_MIN_MS: nat := 1500

  /** The connection and recovery fields. Of a status only the uptime matters, and a status may lack it. */
  datatype Link = Link(client: Option<nat>, connected: bool, port: Option<string>, attempts: nat, recovery: bool,
                       started: Option<int>, pre: Option<Option<int>>, instance: Option<string>, missing: bool)

  const UNLINKED: Link := Link(None, false, None, 0, false, None, None, None, false)

  function Adopt(client: nat, port: string): Link {
    Link(Some(client), true, Some(port), 0, false, None, None, None, false)
  }

  function Mark(l: Link, count: bool): Link {
    UNLINKED.(attempts := l.attempts + if count then 1 else 0)
  }

  /** An accepted reboot clears the connection first, then shows the recovery, then fills in what is known of it. */
  function Leave(l: Link): Link {
    l.(client := None, connected := false, port := None)
  }

  function Fill(l: Link, now: int, uptime: Option<int>, instance: Option<string>): Link {
    l.(started := Some(now), pre := Some(uptime), instance := instance, missing := false)
  }

  function Enter(l: Link, now: int, uptime: Option<int>, instance: Option<string>): Link {
    Fill(Leave(l).(recovery := true), now, uptime, instance)
  }

  function Record(l: Link): Link {
    l.(attempts := l.attempts + 1)
  }

  /** The uptime went down, or one of the two is unknown. */
  predicate Fresh(pre: Option<Option<int>>, post: Option<int>) {
    pre.Some? && pre.value.Some? && post.Some? ==> post.value < pre.value.value
  }

  /** The candidate port is the old USB instance, and no candidate without one has been seen since. */
  predicate Unchanged(l: Link, candidate: Option<string>) {
    l.instance.Some? && candidate == l.instance && !(l.missing || candidate.None?)
  }

  // ----- Threads -----

  /** Where the reconnect thread is in its round, with when it began to probe. */
  datatype Attempt =
    | Waiting
    | Looked
    | Plain
    | PlainPort(port: string)
    | PlainProbe(client: nat, port: string)
    | Reboot
    | Incomplete
    | RebootTimed
    | RebootPort(port: string)
    | RebootProbing(port: string, candidate: Option<string>, since: int)
    | RebootProbe(client: nat, port: string, candidate: Option<string>, since: int, uptime: Option<int>)

  datatype Command = RebootCommand | Bootsel | Other

  /** Who holds the command lock, with the client it took; entering and flagged hold the state lock as well. */
  datatype Holder =
    | Nobody
    | Worker(client: nat, command: Command)
    | Entering(client: nat, uptime: Option<int>, instance: Option<string>)
    | Flagged(client: nat, uptime: Option<int>, instance: Option<string>)
    | Heart(client: nat)
    | Closing(found: Option<nat>)

  /** Clients are numbered as they are opened. */
  datatype Sys = Sys(link: Link, attempt: Attempt, holder: Holder, clock: int, next: nat, closed: set<nat>,
                     lost: set<nat>, stop: bool, fatal: bool)

  const START: Sys := Sys(UNLINKED, Waiting, Nobody, 0, 0, {}, {}, false, false)

  /** What selecting a port gives: one, no such device, or a configuration error. */
  datatype Selected = Port(port: string) | NoDevice | Misconfigured

  /** What a probe gives: a ready client, or a failure before or after a client was opened. */
  datatype Probed = Ready(uptime: Option<int>) | Failed(hadClient: bool, fatal: bool)

  datatype Reply = Accepted(uptime: Option<int>, instance: Option<string>) | TransportError | OtherError

  datatype Action =
    | Tick(ms: nat)
    | Look
    | Decide
    | CheckTime
    | GiveUp
    | Select(selected: Selected)
    | CheckInstance(candidate: Option<string>)
    | Probe(probed: Probed)
    | Finish
    | WorkerTakes(command: Command)
    | WorkerDone(reply: Reply)
    | EnterFlag
    | EnterRest
    | HeartTakes
    | HeartDone(ok: bool)
    | Stop
    | CloseTakes
    | CloseDone

  /** A reboot was accepted, and the fields of its recovery are being written. */
  predicate Between(s: Sys) {
    s.holder.Entering? || s.holder.Flagged?
  }

  /** The reconnect thread reads fields without the state lock, but waits for it to write them. */
  predicate Enabled(s: Sys, a: Action) {
    match a
    case Tick(_) => true
    case Look => s.attempt.Waiting? && !s.stop
    case Decide => s.attempt.Looked?
    case CheckTime => s.attempt.Reboot?
    case GiveUp => s.attempt.Incomplete? && !Between(s)
    case Select(selected) => (s.attempt.Plain? || s.attempt.RebootTimed?) && (selected.NoDevice? ==> !Between(s))
    case CheckInstance(_) => s.attempt.RebootPort?
    case Probe(probed) =>
      (s.attempt.PlainPort? || s.attempt.RebootProbing?) && (probed.Failed? && !probed.fatal ==> !Between(s))
    case Finish => (s.attempt.PlainProbe? || s.attempt.RebootProbe?) && !Between(s)
    case WorkerTakes(_) => s.holder.Nobody?
    case WorkerDone(_) => s.holder.Worker?
    case EnterFlag => s.holder.Entering?
    case EnterRest => s.holder.Flagged?
    case HeartTakes => s.holder.Nobody?
    case HeartDone(_) => s.holder.Heart?
    case Stop => true
    case CloseTakes => s.holder.Nobody? && s.stop
    case CloseDone => s.holder.Closing?
  }

  /** A round that failed: counted, and outside recovery the link is cleared as well. */
  function Missed(s: Sys): Sys {
    var recovering := s.attempt.RebootTimed? || s.attempt.RebootProbing? || s.attempt.RebootProbe?;
    s.(link := if recovering then Record(s.link) else Mark(s.link, true), attempt := Waiting)
  }

  function Fatal(s: Sys): Sys {
    s.(fatal := true, stop := true, attempt := Waiting)
  }

  function SelectStep(s: Sys, selected: Selected): Sys {
    match selected
    case Port(p) => s.(attempt := if s.attempt.Plain? then PlainPort(p) else RebootPort(p))
    case NoDevice => Missed(s)
    case Misconfigured => Fatal(s)
  }

  function InstanceStep(s: Sys, candidate: Option<string>): Sys
    requires s.attempt.RebootPort?
  {
    var link := s.link.(missing := s.link.missing || candidate.None?);
    s.(link := link,
       attempt := if Unchanged(s.link, candidate) then Waiting
                  else RebootProbing(s.attempt.port, candidate, s.clock))
  }

  function ProbeStep(s: Sys, probed: Probed): Sys
    requires s.attempt.PlainPort? || s.attempt.RebootProbing?
  {
    match probed
    case Ready(uptime) =>
      s.(next := s.next + 1,
         attempt := if s.attempt.PlainPort? then PlainProbe(s.next, s.attempt.port)
                    else RebootProbe(s.next, s.attempt.port, s.attempt.candidate, s.attempt.since, uptime))
    case Failed(hadClient, fatal) =>
      var s' := if hadClient then s.(next := s.next + 1, closed := s.closed + {s.next}) else s;
      if fatal then Fatal(s') else Missed(s')
  }

  function FinishStep(s: Sys): Sys
    requires s.attempt.PlainProbe? || s.attempt.RebootProbe?
  {
    if s.attempt.RebootProbe? && !Fresh(s.link.pre, s.attempt.uptime) then
      Missed(s).(closed := s.closed + {s.attempt.client})
    else
      var replaced := if s.link.client.Some? then {s.link.client.value} else {};
      s.(link := Adopt(s.attempt.client, s.attempt.port), attempt := Waiting, closed := s.closed + replaced)
  }

  function Disconnected(s: Sys): Sys {
    var replaced := if s.link.client.Some? then {s.link.client.value} else {};
    s.(link := Mark(s.link, false), closed := s.closed + replaced)
  }

  function WorkerStep(s: Sys, reply: Reply): Sys
    requires s.holder.Worker?
  {
    var free := s.(holder := Nobody);
    match reply
    case TransportError => Disconnected(free)
    case OtherError => free
    case Accepted(uptime, instance) =>
      match s.holder.command
      case RebootCommand =>
        s.(link := Leave(s.link), holder := Entering(s.holder.client, uptime, instance))
      case Bootsel => Disconnected(free)
      case Other => free
  }

  function CloseStep(s: Sys): Sys
    requires s.holder.Closing?
  {
    var taken := if s.holder.found.Some? then {s.holder.found.value} else {};
    var current := if s.link.client.Some? then {s.link.client.value} else {};
    s.(holder := Nobody, closed := s.closed + taken, lost := s.lost + (current - taken),
       link := s.link.(client := None, connected := false, port := None))
  }

  function Step(s: Sys, a: Action): Sys
    requires Enabled(s, a)
  {
    match a
    case Tick(ms) => s.(clock := s.clock + ms)
    case Look => if s.link.connected then s else s.(attempt := Looked)
    case Decide => s.(attempt := if s.link.recovery then Reboot else Plain)
    case CheckTime =>
      if s.link.started.None? then s.(attempt := Incomplete)
      else s.(attempt := if s.clock - s.link.started.value < RECOVERY_MIN_MS then Waiting else RebootTimed)
    case GiveUp => s.(link := Mark(s.link, false), attempt := Waiting)
    case Select(selected) => SelectStep(s, selected)
    case CheckInstance(candidate) => InstanceStep(s, candidate)
    case Probe(probed) => ProbeStep(s, probed)
    case Finish => FinishStep(s)
    case WorkerTakes(c) =>
      if s.link.client.Some? && s.link.connected then s.(holder := Worker(s.link.client.value, c)) else s
    case WorkerDone(reply) => WorkerStep(s, reply)
    case EnterFlag =>
      s.(link := s.link.(recovery := true), holder := Flagged(s.holder.client, s.holder.uptime, s.holder.instance))
    case EnterRest =>
      s.(link := Fill(s.link, s.clock, s.holder.uptime, s.holder.instance), holder := Nobody,
         closed := s.closed + {s.holder.client})
    case HeartTakes =>
      if s.link.client.Some? && s.link.connected then s.(holder := Heart(s.link.client.value)) else s
    case HeartDone(ok) => if ok then s.(holder := Nobody) else Disconnected(s.(holder := Nobody))
    case Stop => s.(stop := true)
    case CloseTakes => s.(holder := Closing(s.link.client))
    case CloseDone => CloseStep(s)
  }

  // ----- What every step keeps -----

  predicate Linked(l: Link) {
    (l.connected <==> l.client.Some?) && (l.port.Some? <==> l.client.Some?)
  }

  predicate RecoveryFields(s: Sys) {
    var l := s.link;
    if l.recovery && !s.holder.Flagged? then
      !l.connected && l.started.Some? && l.started.value <= s.clock && l.pre.Some?
    else
      (s.holder.Flagged? ==> l.recovery && !l.connected)
      && l.started.None? && l.pre.None? && l.instance.None? && !l.missing
  }

  /** Recovery has lasted long enough at a moment. */
  predicate Late(s: Sys, at: int) {
    s.link.started.Some? && at - s.link.started.value >= RECOVERY_MIN_MS && at <= s.clock && !s.holder.Flagged?
  }

  /** Where a round is agrees with the fields it has read; it only runs while there is no client. */
  predicate RoundAgrees(s: Sys) {
    match s.attempt
    case Waiting => true
    case Looked => s.link.client.None?
    case Plain => s.link.client.None?
    case PlainPort(_) => s.link.client.None?
    case PlainProbe(_, _) => s.link.client.None?
    case Reboot => s.link.recovery
    case Incomplete => s.link.recovery
    case RebootTimed => s.link.recovery && Late(s, s.clock)
    case RebootPort(_) => s.link.recovery && Late(s, s.clock)
    case RebootProbing(_, candidate, since) => s.link.recovery && Late(s, since) && !Unchanged(s.link, candidate)
    case RebootProbe(_, _, candidate, since, _) => s.link.recovery && Late(s, since) && !Unchanged(s.link, candidate)
  }

  /** A command or heartbeat works on the current client from beginning to end. */
  predicate HolderAgrees(s: Sys) {
    match s.holder
    case Nobody => true
    case Worker(c, _) => s.link.client == Some(c)
    case Entering(_, _, _) => s.link.client.None? && !s.link.recovery
    case Flagged(_, _, _) => s.link.client.None?
    case Heart(c) => s.link.client == Some(c)
    case Closing(c) => c.Some? ==> s.link.client == c
  }

  function Probing(s: Sys): set<nat> {
    if s.attempt.PlainProbe? || s.attempt.RebootProbe? then {s.attempt.client} else {}
  }

  function Leaving(s: Sys): set<nat> {
    if Between(s) then {s.holder.client} else {}
  }

  /** The clients in use: the current one, one being probed, and one a reboot is being entered with. */
  function Current(s: Sys): set<nat> {
    (if s.link.client.Some? then {s.link.client.value} else {}) + Probing(s) + Leaving(s)
  }

  /** Every client ever opened is closed, in use, or lost, and only one of these. */
  ghost predicate Accounted(s: Sys) {
    && (forall i: nat :: i in s.closed || i in Current(s) || i in s.lost <==> i < s.next)
    && s.closed !! Current(s) && s.lost !! Current(s) && s.closed !! s.lost
    && (s.link.client.Some? ==> s.link.client.value !in Probing(s)) && Probing(s) !! Leaving(s)
  }

  ghost predicate Inv(s: Sys) {
    && Linked(s.link) && RecoveryFields(s) && RoundAgrees(s) && HolderAgrees(s) && Accounted(s)
  }

  lemma ReconnectKeeps(s: Sys, a: Action)
    requires Inv(s) && Enabled(s, a)
    requires a.Look? || a.Decide? || a.CheckTime? || a.GiveUp? || a.CheckInstance?
    ensures Inv(Step(s, a))
  {
  }

  lemma SelectKeeps(s: Sys, selected: Selected)
    requires Inv(s) && Enabled(s, Select(selected))
    ensures Inv(Step(s, Select(selected)))
  {
  }

  lemma ProbeKeeps(s: Sys, probed: Probed)
    requires Inv(s) && Enabled(s, Probe(probed))
    ensures Inv(Step(s, Probe(probed)))
  {
    assert s.next !in s.closed && s.next !in Current(s) && s.next !in s.lost;
  }

  lemma FinishKeeps(s: Sys)
    requires Inv(s) && Enabled(s, Finish)
    ensures Inv(Step(s, Finish))
  {
  }

  lemma WorkerKeeps(s: Sys, a: Action)
    requires Inv(s) && Enabled(s, a) && (a.WorkerTakes? || a.WorkerDone?)
    ensures Inv(Step(s, a))
  {
  }

  lemma HeartKeeps(s: Sys, a: Action)
    requires Inv(s) && Enabled(s, a) && (a.HeartTakes? || a.HeartDone?)
    ensures Inv(Step(s, a))
  {
  }

  lemma OthersKeep(s: Sys, a: Action)
    requires Inv(s) && Enabled(s, a)
    requires a.Tick? || a.EnterFlag? || a.EnterRest? || a.Stop? || a.CloseTakes? || a.CloseDone?
    ensures Inv(Step(s, a))
  {
  }

  lemma StepKeeps(s: Sys, a: Action)
    requires Inv(s) && Enabled(s, a)
    ensures Inv(Step(s, a))
  {
    match a
    case Select(selected) => SelectKeeps(s, selected);
    case Probe(probed) => ProbeKeeps(s, probed);
    case Finish => FinishKeeps(s);
    case WorkerTakes(_) => WorkerKeeps(s, a);
    case WorkerDone(_) => WorkerKeeps(s, a);
    case HeartTakes => HeartKeeps(s, a);
    case HeartDone(_) => HeartKeeps(s, a);
    case Tick(_) => OthersKeep(s, a);
    case EnterFlag => OthersKeep(s, a);
    case EnterRest => OthersKeep(s, a);
    case Stop => OthersKeep(s, a);
    case CloseTakes => OthersKeep(s, a);
    case CloseDone => OthersKeep(s, a);
    case _ => ReconnectKeeps(s, a);
  }

  // ----- Runs -----

  /** The state after some actions in any order; what cannot happen is passed over. */
  function Run(s: Sys, actions: seq<Action>): Sys
    decreases |actions|
  {
    if actions == [] then s
    else Run(if Enabled(s, actions[0]) then Step(s, actions[0]) else s, actions[1..])
  }

  lemma {:induction false} RunKeeps(s: Sys, actions: seq<Action>)
    requires Inv(s)
    ensures Inv(Run(s, actions))
    decreases |actions|
  {
    if actions != [] {
      if Enabled(s, actions[0]) {
        StepKeeps(s, actions[0]);
      }
      RunKeeps(if Enabled(s, actions[0]) then Step(s, actions[0]) else s, actions[1..]);
    }
  }

  /** At every point of every run: connected, holding a client and knowing a port are the same thing. */
  lemma ConnectedAgrees(actions: seq<Action>)
    ensures var l := Run(START, actions).link;
            && (l.connected <==> l.client.Some?) && (l.connected <==> l.port.Some?)
            && (l.recovery ==> !l.connected)
            && (l.recovery && !Between(Run(START, actions)) ==>
                  l.started.Some? && l.started.value <= Run(START, actions).clock)
  {
    RunKeeps(START, actions);
  }

  // ----- How recovery ends -----

  /**
   * The adoption of a probe that was begun at least 1.5 s after recovery, not on the USB instance of before unless
   * that had been missing, and with a lower uptime when both are known.
   */
  predicate Proper(s: Sys, a: Action) {
    && a.Finish? && s.attempt.RebootProbe?
    && s.link.started.Some? && s.attempt.since - s.link.started.value >= 1500 && s.attempt.since <= s.clock
    && (s.link.instance.Some? && s.attempt.candidate == s.link.instance ==> s.link.missing)
    && (BothKnown(s) ==> s.attempt.uptime.value < s.link.pre.value.value)
  }

  /** The uptimes before the reboot and at the probe are both known. */
  predicate BothKnown(s: Sys)
    requires s.attempt.RebootProbe?
  {
    s.link.pre.Some? && s.link.pre.value.Some? && s.attempt.uptime.Some?
  }

  predicate Ends(s: Sys, a: Action) {
    Enabled(s, a) && s.link.recovery && !Step(s, a).link.recovery
  }

  /** The round has read the fields of a reboot half written: no recovery yet, or one without a start. */
  predicate Misread(s: Sys) {
    || s.attempt.Incomplete?
    || ((s.attempt.Plain? || s.attempt.PlainPort? || s.attempt.PlainProbe?) && (s.link.recovery || Between(s)))
  }

  /** At any point of any run, recovery ends properly or by a round that has misread. */
  lemma RecoveryExit(actions: seq<Action>, a: Action)
    requires Ends(Run(START, actions), a)
    ensures var s := Run(START, actions);
            || Misread(s)
            || (Proper(s, a) && Adopted(Step(s, a).link, s.attempt.client, s.attempt.port))
  {
    RunKeeps(START, actions);
  }

  /** Connected to a client at a port, with nothing left of a recovery or of failed attempts. */
  predicate Adopted(l: Link, client: nat, port: string) {
    l == Link(Some(client), true, Some(port), 0, false, None, None, None, false)
  }

  /**
   * At any point of any run, the probe of a recovery is adopted exactly if its uptime is lower or one of the two is
   * unknown; otherwise its client is closed, the attempt is counted, and the recovery goes on as it was.
   */
  lemma FinishIff(actions: seq<Action>)
    requires var s := Run(START, actions); Enabled(s, Finish) && s.attempt.RebootProbe?
    ensures var s := Run(START, actions);
            var t := Step(s, Finish);
            && t.attempt.Waiting?
            && if BothKnown(s) && s.attempt.uptime.value >= s.link.pre.value.value then
                 t.link == s.link.(attempts := s.link.attempts + 1) && t.link.recovery && s.attempt.client in t.closed
               else Adopted(t.link, s.attempt.client, s.attempt.port) && s.attempt.client !in t.closed
  {
    RunKeeps(START, actions);
    var s := Run(START, actions);
    assert s.attempt.client in Current(s);
  }

  /** No further reboot is accepted. */
  predicate NoneAccepted(actions: seq<Action>) {
    forall i :: 0 <= i < |actions| ==> !(actions[i].WorkerDone? && actions[i].reply.Accepted?)
  }

  /** However the threads go on, this recovery does not end otherwise. */
  ghost predicate EndsProperly(s: Sys) {
    forall more, a :: NoneAccepted(more) && Ends(Run(s, more), a) ==> Proper(Run(s, more), a)
  }

  lemma CalmStep(s: Sys, a: Action)
    requires Inv(s) && Enabled(s, a) && !Misread(s) && !Between(s) && !(a.WorkerDone? && a.reply.Accepted?)
    ensures !Misread(Step(s, a)) && !Between(Step(s, a))
  {
  }

  lemma {:induction false} CalmRun(s: Sys, actions: seq<Action>)
    requires Inv(s) && !Misread(s) && !Between(s) && NoneAccepted(actions)
    ensures Inv(Run(s, actions)) && !Misread(Run(s, actions))
    decreases |actions|
  {
    if actions != [] {
      assert !(actions[0].WorkerDone? && actions[0].reply.Accepted?);
      if Enabled(s, actions[0]) {
        StepKeeps(s, actions[0]);
        CalmStep(s, actions[0]);
      }
      CalmRun(if Enabled(s, actions[0]) then Step(s, actions[0]) else s, actions[1..]);
    }
  }

  lemma ProperUnlessMisread(s: Sys, a: Action)
    requires Inv(s) && !Misread(s) && Ends(s, a)
    ensures Proper(s, a)
  {
  }

  lemma MisreadEnds(s: Sys) returns (a: Action)
    requires Inv(s) && Misread(s) && !Between(s) && s.link.recovery
    ensures Ends(s, a) && !Proper(s, a)
  {
    match s.attempt
    case Incomplete => a := GiveUp;
    case Plain => a := Select(NoDevice);
    case PlainPort(_) => a := Probe(Failed(false, false));
    case PlainProbe(_, _) => a := Finish;
  }

  /** Once its fields are written, a recovery is sure to end properly, exactly if the running round has not misread. */
  lemma RecoveryExitIff(actions: seq<Action>)
    requires var s := Run(START, actions); s.link.recovery && !Between(s)
    ensures EndsProperly(Run(START, actions)) <==> !Misread(Run(START, actions))
  {
    var s := Run(START, actions);
    RunKeeps(START, actions);
    assert Run(s, []) == s;
    if Misread(s) {
      var a := MisreadEnds(s);
      assert NoneAccepted([]) && Ends(Run(s, []), a);
    } else {
      forall more, a | NoneAccepted(more) && Ends(Run(s, more), a)
        ensures Proper(Run(s, more), a)
      {
        CalmRun(s, more);
        ProperUnlessMisread(Run(s, more), a);
      }
    }
  }

  // ----- A recovery cut short -----

  const HELD: Sys := START.(link := Adopt(0, "p"), next := 1)

  const HURRIED: Sys :=
    START.(link := Enter(UNLINKED, 0, Some(5000), Some("usb")), attempt := Plain, next := 1, closed := {0})

  lemma Connects()
    ensures Run(PROBING, [Finish]) == HELD
  {
    assert PROBING.closed + {} == {};
    RunStep(PROBING, Finish, []);
  }

  const HASTY: Sys :=
    HELD.(link := UNLINKED, holder := Entering(0, Some(5000), Some("usb")), attempt := Plain)

  lemma LooksBetween()
    ensures Run(HELD, [WorkerTakes(RebootCommand), WorkerDone(Accepted(Some(5000), Some("usb"))), Look, Decide])
            == HASTY
  {
    var reply := Accepted(Some(5000), Some("usb"));
    var s1 := HELD.(holder := Worker(0, RebootCommand));
    RunStep(HELD, WorkerTakes(RebootCommand), [WorkerDone(reply), Look, Decide]);
    RunStep(s1, WorkerDone(reply), [Look, Decide]);
    RunStep(HASTY.(attempt := Waiting), Look, [Decide]);
    RunStep(HASTY.(attempt := Looked), Decide, []);
  }

  lemma Enters()
    ensures Run(HASTY, [EnterFlag, EnterRest]) == HURRIED
  {
    var s := HASTY.(link := UNLINKED.(recovery := true), holder := Flagged(0, Some(5000), Some("usb")));
    RunStep(HASTY, EnterFlag, [EnterRest]);
    assert s.closed + {0} == {0};
    RunStep(s, EnterRest, []);
  }

  lemma Adopts()
    ensures var s := Run(HURRIED, [Select(Port("p")), Probe(Ready(Some(5001))), Finish]);
            s.link == Adopt(1, "p") && s.clock == HURRIED.clock
  {
    RunStep(HURRIED, Select(Port("p")), [Probe(Ready(Some(5001))), Finish]);
    RunStep(HURRIED.(attempt := PlainPort("p")), Probe(Ready(Some(5001))), [Finish]);
    RunStep(HURRIED.(attempt := PlainProbe(1, "p"), next := 2), Finish, []);
  }

  /**
   * It can end otherwise: a round that looks between the fields of an accepted reboot adopts the board that has not
   * reset yet, in the same millisecond and with an uptime that has grown.
   */
  lemma RecoveryCutShort() returns (actions: seq<Action>, more: seq<Action>)
    ensures var s := Run(START, actions);
            && s.link == Enter(UNLINKED, 0, Some(5000), Some("usb")) && Misread(s)
            && Run(START, actions + more).link == Adopt(1, "p") && Run(START, actions + more).clock == 0
  {
    var first := [Look, Decide, Select(Port("p")), Probe(Ready(None))];
    var second := [WorkerTakes(RebootCommand), WorkerDone(Accepted(Some(5000), Some("usb"))), Look, Decide];
    actions := first + [Finish] + second + [EnterFlag, EnterRest];
    more := [Select(Port("p")), Probe(Ready(Some(5001))), Finish];
    ProbeFromStart();
    RunConcat(START, first, [Finish]);
    Connects();
    RunConcat(START, first + [Finish], second);
    LooksBetween();
    RunConcat(START, first + [Finish] + second, [EnterFlag, EnterRest]);
    Enters();
    RunConcat(START, actions, more);
    Adopts();
  }

  /** A command is never left with a client that another thread has closed or replaced. */
  lemma HeldClientIsCurrent(actions: seq<Action>)
    ensures var s := Run(START, actions);
            s.holder.Worker? || s.holder.Heart? ==>
              s.link.client == Some(s.holder.client) && s.holder.client !in s.closed && s.attempt.Waiting?
  {
    RunKeeps(START, actions);
    var s := Run(START, actions);
    if s.holder.Worker? || s.holder.Heart? {
      assert s.holder.client in Current(s);
    }
  }

  // ----- Clients left open -----

  /** A probe adopted while the shutdown is between looking for a client and forgetting it. */
  predicate Overtakes(s: Sys, a: Action) {
    && Enabled(s, a) && a.Finish? && s.holder.Closing?
    && (s.attempt.PlainProbe? || (BothKnown(s) ==> s.attempt.uptime.value < s.link.pre.value.value))
  }

  predicate SomeOvertakes(s: Sys, actions: seq<Action>)
    decreases |actions|
  {
    actions != [] &&
    (Overtakes(s, actions[0]) || SomeOvertakes(if Enabled(s, actions[0]) then Step(s, actions[0]) else s, actions[1..]))
  }

  /** A client is lost already, or the shutdown is about to forget one it has not seen. */
  predicate Lossy(s: Sys) {
    s.lost != {} || (s.holder.Closing? && s.link.client != s.holder.found)
  }

  lemma LossyStep(s: Sys, a: Action)
    requires Inv(s) && Enabled(s, a)
    ensures Lossy(Step(s, a)) <==> Lossy(s) || Overtakes(s, a)
  {
    if a.CloseDone? && s.link.client.Some? && s.link.client != s.holder.found {
      assert s.link.client.value in Step(s, a).lost;
    }
  }

  lemma {:induction false} LossyRun(s: Sys, actions: seq<Action>)
    requires Inv(s)
    ensures Lossy(Run(s, actions)) <==> Lossy(s) || SomeOvertakes(s, actions)
    decreases |actions|
  {
    if actions != [] {
      if Enabled(s, actions[0]) {
        StepKeeps(s, actions[0]);
        LossyStep(s, actions[0]);
      }
      LossyRun(if Enabled(s, actions[0]) then Step(s, actions[0]) else s, actions[1..]);
    }
  }

  /**
   * Every client ever opened is closed, current or being probed, exactly as long as no adoption has overtaken the
   * shutdown and been forgotten by it; and a shutdown that none overtook leaves nothing open.
   */
  lemma ClientsAccountedFor(actions: seq<Action>)
    ensures var s := Run(START, actions);
            && (forall i: nat :: i < s.next ==> i in s.closed || i in Current(s) || i in s.lost)
            && (Lossy(s) <==> SomeOvertakes(START, actions))
            && (s.link.client.None? && s.attempt.Waiting? && s.holder.Nobody? && !SomeOvertakes(START, actions) ==>
                  forall i: nat :: i < s.next ==> i in s.closed)
  {
    RunKeeps(START, actions);
    LossyRun(START, actions);
  }

  const PROBING: Sys := START.(attempt := PlainProbe(0, "p"), next := 1)

  lemma ProbeFromStart()
    ensures Run(START, [Look, Decide, Select(Port("p")), Probe(Ready(None))]) == PROBING
  {
    var s1 := START.(attempt := Looked);
    var s2 := START.(attempt := Plain);
    var s3 := START.(attempt := PlainPort("p"));
    RunStep(START, Look, [Decide, Select(Port("p")), Probe(Ready(None))]);
    RunStep(s1, Decide, [Select(Port("p")), Probe(Ready(None))]);
    RunStep(s2, Select(Port("p")), [Probe(Ready(None))]);
    RunStep(s3, Probe(Ready(None)), []);
  }

  lemma CloseOverProbe()
    ensures var s := Run(PROBING, [Stop, CloseTakes, Finish, CloseDone]);
            s.lost == {0} && s.closed == {} && s.link.client.None?
  {
    var s1 := PROBING.(stop := true);
    var s2 := s1.(holder := Closing(None));
    var s3 := s2.(link := Adopt(0, "p"), attempt := Waiting);
    RunStep(PROBING, Stop, [CloseTakes, Finish, CloseDone]);
    RunStep(s1, CloseTakes, [Finish, CloseDone]);
    assert s2.closed + {} == s2.closed;
    RunStep(s2, Finish, [CloseDone]);
    RunStep(s3, CloseDone, []);
  }

  /** It can happen: the reconnect thread outlives the wait for it and adopts a probe in between. */
  lemma ShutdownOvertaken()
    ensures var actions := [Look, Decide, Select(Port("p")), Probe(Ready(None))]
                           + [Stop, CloseTakes, Finish, CloseDone];
            var s := Run(START, actions);
            s.lost == {0} && s.closed == {} && s.link.client.None?
  {
    ProbeFromStart();
    CloseOverProbe();
    RunConcat(START, [Look, Decide, Select(Port("p")), Probe(Ready(None))], [Stop, CloseTakes, Finish, CloseDone]);
  }

  lemma {:induction false} RunConcat(s: Sys, a: seq<Action>, b: seq<Action>)
    ensures Run(s, a + b) == Run(Run(s, a), b)
    decreases |a|
  {
    if a == [] {
      assert a + b == b;
    } else {
      assert (a + b)[0] == a[0] && (a + b)[1..] == a[1..] + b;
      RunConcat(if Enabled(s, a[0]) then Step(s, a[0]) else s, a[1..], b);
    }
  }

  lemma {:induction false} RunStep(s: Sys, a: Action, rest: seq<Action>)
    requires Enabled(s, a)
    ensures Run(s, [a] + rest) == Run(Step(s, a), rest)
  {
    assert ([a] + rest)[1..] == rest;
  }
}
