/**
 * The watchdog under every interleaving: fed at every expiry while no fatal reason is active and nothing is refused,
 * and starved once one is; with that, the fail-safe chain from a stuck lease to a silent watchdog.
 */
module FirmwareWatchdog {
  import opened Common
  import opened RelaySpec
  import opened Firmware
  import opened FirmwareReasons
  import opened FirmwareSafety
  import H = HealthSpec
  import Watchdog

  /** One of the three reasons after which the watchdog shall reset the board. */
  predicate Fatal(c: Core) {
    || H.Active(c.log, H.RelayGpioInitFailed) || H.Active(c.log, H.RelayIoFailed)
    || H.Active(c.log, H.WatchdogSupervisorFailed)
  }

  predicate FatalSample(sample: set<H.Reason>) {
    H.RelayGpioInitFailed in sample || H.RelayIoFailed in sample || H.WatchdogSupervisorFailed in sample
  }

  lemma SampleIs(log: seq<H.Event>, c: Core)
    requires c.log == log
    ensures FatalSample(H.ActiveReasons(log)) <==> Fatal(c)
  {
  }

  /** None of the three ever goes away. */
  lemma FatalStays(cfg: Config, s: Sys, step: Step)
    requires Enabled(s, step) && Fatal(s.core)
    ensures Fatal(Next(cfg, s, step).core)
  {
    var reason := if H.Active(s.core.log, H.RelayGpioInitFailed) then H.RelayGpioInitFailed
                  else if H.Active(s.core.log, H.RelayIoFailed) then H.RelayIoFailed
                  else H.WatchdogSupervisorFailed;
    ReasonStays(cfg, s, step, reason);
  }

  lemma ReasonStays(cfg: Config, s: Sys, step: Step, reason: H.Reason)
    requires Enabled(s, step) && H.Active(s.core.log, reason)
    requires reason == H.RelayGpioInitFailed || reason == H.RelayIoFailed || reason == H.WatchdogSupervisorFailed
    ensures H.Active(Next(cfg, s, step).core.log, reason)
  {
    ReasonStep(cfg, s, step, reason);
    match step
    case Timer(t) => FatalHandled(cfg, s, t, reason);
    case Host(h) => FatalHosted(s, h, reason);
    case _ =>
  }

  lemma FatalHandled(cfg: Config, s: Sys, t: Handler, reason: H.Reason)
    requires reason == H.RelayGpioInitFailed || reason == H.RelayIoFailed || reason == H.WatchdogSupervisorFailed
    ensures ReasonHandled(cfg, s, t, reason, true)
  {
  }

  lemma FatalHosted(s: Sys, h: HostAction, reason: H.Reason)
    requires reason == H.RelayGpioInitFailed || reason == H.RelayIoFailed || reason == H.WatchdogSupervisorFailed
    ensures ReasonHosted(s, h, reason, true)
  {
  }

  // ----- Starved -----

  /** Feeds made so far, plus the one that a handler in flight with a clean sample may still make. */
  function FeedBound(s: Sys): nat {
    s.dog.feeds + if s.dog.sample.Some? && !FatalSample(s.dog.sample.value) then 1 else 0
  }

  lemma OtherStep(cfg: Config, s: Sys, step: Step)
    requires Enabled(s, step) && !step.Dog?
    ensures Next(cfg, s, step).dog == s.dog
  {
  }

  lemma DogFeeds(cfg: Config, s: Sys, d: DogAction)
    requires Enabled(s, Dog(d)) && Fatal(s.core)
    ensures FeedBound(NextDog(cfg, s, d)) <= FeedBound(s)
  {
    var next := s.now + cfg.feedIntervalMs;
    match d
    case DogStart(ready, setUp, accepted) =>
      Watchdog.StartIs(s.dog, s.core.log, next, ready && Watchdog.RuntimeReady(s.core.log), setUp, accepted);
    case DogSample => SampleIs(s.core.log, s.core);
    case DogBody(fed, accepted) => Watchdog.WorkIs(s.dog, s.core.log, next, fed, accepted);
  }

  /** Once a fatal reason is active, only a handler that had sampled the health before can still feed. */
  lemma {:induction false} NoFeeding(cfg: Config, s: Sys, steps: seq<Step>, t: Sys)
    requires Run(cfg, s, steps, t) && Fatal(s.core)
    ensures FeedBound(t) <= FeedBound(s) && Fatal(t.core)
    decreases |steps|
  {
    if steps != [] {
      FatalStays(cfg, s, steps[0]);
      if steps[0].Dog? {
        DogFeeds(cfg, s, steps[0].dog);
      } else {
        OtherStep(cfg, s, steps[0]);
      }
      NoFeeding(cfg, Next(cfg, s, steps[0]), steps[1..], t);
    }
  }

  /**
   * The fail-safe chain: a relay that is on under a timeout policy with no lease timer pending and no lease handler
   * in flight means the write failure is already latched, and from then on the watchdog is fed at most by a handler
   * that had sampled the health before the failure.
   */
  lemma FailSafeChain(cfg: Config, now: nat, steps: seq<Step>, s: Sys, more: seq<Step>, t: Sys)
    requires Run(cfg, Boot(cfg, now), steps, s) && (cfg.policy.EnergizedOnly? || cfg.policy.AlwaysOnOwner?)
    requires s.core.relay.on != {} && s.core.relay.lease.due == None && s.core.relay.lease.running == 0
    requires Run(cfg, s, more, t)
    ensures IoFailed(s) && IoFailed(t)
    ensures t.dog.feeds <= FeedBound(s)
    ensures s.dog.sample == None ==> t.dog.feeds <= s.dog.feeds
  {
    InterleavedLease(cfg, now, steps, s);
    BootIsSafe(cfg, now);
    RunKeeps(cfg, Boot(cfg, now), steps, s);
    RunKeeps(cfg, s, more, t);
    NoFeeding(cfg, s, more, t);
  }

  // ----- Fed -----

  /** The hardware or the kernel refuses the watchdog something. */
  predicate Refuses(step: Step) {
    step.Dog? &&
    match step.dog
    case DogStart(_, setUp, accepted) => !setUp || !accepted
    case DogSample => false
    case DogBody(fed, accepted) => !fed || !accepted
  }

  /** No fatal reason is active at any point of the run, and nothing is refused in it. */
  predicate Untroubled(cfg: Config, s: Sys, steps: seq<Step>)
    decreases |steps|
  {
    && !Fatal(s.core)
    && (steps == [] ||
        (Enabled(s, steps[0]) && !Refuses(steps[0]) && Untroubled(cfg, Next(cfg, s, steps[0]), steps[1..])))
  }

  /** How often the handler of the supervisor has run to its end. */
  function Handlings(steps: seq<Step>): nat {
    if steps == [] then 0 else (if steps[0].Dog? && steps[0].dog.DogBody? then 1 else 0) + Handlings(steps[1..])
  }

  /** A supervisor that was started is in operation: its timer is pending, or its handler has a clean sample. */
  predicate Operating(dog: Watchdog.State) {
    if dog.started then
      && dog.enabled && dog.healthy && (dog.due.Some? <==> dog.sample.None?)
      && (dog.sample.Some? ==> !FatalSample(dog.sample.value))
    else dog.due.None? && dog.sample.None?
  }

  lemma DogOperates(cfg: Config, s: Sys, d: DogAction)
    requires Enabled(s, Dog(d)) && Operating(s.dog) && !Fatal(s.core) && !Refuses(Dog(d))
    ensures var t := NextDog(cfg, s, d);
            && Operating(t.dog)
            && t.dog.feeds == s.dog.feeds + (if d.DogBody? then 1 else 0)
            && (d.DogBody? ==> t.dog.due == Some(s.now + cfg.feedIntervalMs))
  {
    var next := s.now + cfg.feedIntervalMs;
    match d
    case DogStart(ready, setUp, accepted) =>
      Watchdog.StartIs(s.dog, s.core.log, next, ready && Watchdog.RuntimeReady(s.core.log), setUp, accepted);
    case DogSample => SampleIs(s.core.log, s.core);
    case DogBody(fed, accepted) => Watchdog.WorkIs(s.dog, s.core.log, next, fed, accepted);
  }

  lemma {:induction false} RunFeeds(cfg: Config, s: Sys, steps: seq<Step>, t: Sys)
    requires Run(cfg, s, steps, t) && Untroubled(cfg, s, steps) && Operating(s.dog)
    ensures Operating(t.dog) && t.dog.feeds == s.dog.feeds + Handlings(steps)
    decreases |steps|
  {
    if steps != [] {
      if steps[0].Dog? {
        DogOperates(cfg, s, steps[0].dog);
      } else {
        OtherStep(cfg, s, steps[0]);
      }
      RunFeeds(cfg, Next(cfg, s, steps[0]), steps[1..], t);
    }
  }

  /**
   * Whatever the interleaving: while none of the three fatal reasons is active and nothing is refused, a started
   * supervisor stays in operation, every handling of its timer has fed, and the next one feeds too and sets the timer
   * an interval ahead.
   */
  lemma KeepsFeeding(cfg: Config, now: nat, steps: seq<Step>, s: Sys)
    requires Run(cfg, Boot(cfg, now), steps, s) && Untroubled(cfg, Boot(cfg, now), steps)
    ensures s.dog.feeds == Handlings(steps)
    ensures s.dog.started ==> s.dog.enabled && s.dog.healthy && (s.dog.due.Some? || s.dog.sample.Some?)
    ensures s.dog.sample.Some? && s.mode == Running && WellFormed(s) ==>
              var t := NextDog(cfg, s, DogBody(true, true));
              t.dog.feeds == s.dog.feeds + 1 && t.dog.due == Some(s.now + cfg.feedIntervalMs)
  {
    RunFeeds(cfg, Boot(cfg, now), steps, s);
    LastUntroubled(cfg, Boot(cfg, now), steps, s);
    if s.dog.sample.Some? && s.mode == Running && WellFormed(s) {
      DogOperates(cfg, s, DogBody(true, true));
    }
  }

  lemma {:induction false} LastUntroubled(cfg: Config, s: Sys, steps: seq<Step>, t: Sys)
    requires Run(cfg, s, steps, t) && Untroubled(cfg, s, steps)
    ensures !Fatal(t.core)
    decreases |steps|
  {
    if steps != [] {
      LastUntroubled(cfg, Next(cfg, s, steps[0]), steps[1..], t);
    }
  }

  /** A sample and the rest of its handler, with nothing refused. */
  lemma SampledFeeds(c: Core, dog: Watchdog.State, sampled: Watchdog.State, next: nat)
    requires dog.started && dog.enabled && dog.healthy && sampled == Watchdog.Sample(dog, c.log)
    ensures var d := Watchdog.Work(sampled, c.log, next, true, true).0;
            && d.feeds == dog.feeds + (if Fatal(c) then 0 else 1)
            && d.due == if Fatal(c) then None else Some(next)
  {
    SampleIs(c.log, c);
    Watchdog.WorkIs(sampled, c.log, next, true, true);
  }
}
