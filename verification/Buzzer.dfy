/** The buzzer fields of firmware/src/indicator.c, updated in place. */
module Buzzer {
  import opened BuzzerSpec

  class Buzzer {
    const config: Config
    var pattern: Pattern
    var beepsRemaining: nat
    var beepOn: bool
    var beepOnMs: nat
    var beepOffMs: nat
    var beepNextMs: int
    var lastBuzzer: Pattern
    var tone: bool

    constructor (config: Config)
      ensures this.config == config && View() == QUIET
    {
      this.config := config;
      pattern, lastBuzzer := Silent, Silent;
      beepsRemaining, beepOn, tone := 0, false, false;
      beepOnMs, beepOffMs, beepNextMs := 60, 60, 0;
    }

    function View(): State
      reads this
    {
      State(pattern, beepsRemaining, beepOn, beepOnMs, beepOffMs, beepNextMs, lastBuzzer, tone)
    }

    method SetBuzzer(p: Pattern, now: int)
      modifies this
      ensures View() == Set(config, old(View()), p, now)
    {
      if !config.feedback || !config.hardware {
        return;
      }
      match p {
        case Accepted => beepsRemaining, beepOnMs, beepOffMs := 1, 60, 60;
        case Rejected => beepsRemaining, beepOnMs, beepOffMs := 2, 60, 60;
        case OwnerLost => beepsRemaining, beepOnMs, beepOffMs := 3, 250, 250;
        case RebootPending => beepsRemaining, beepOnMs, beepOffMs := 3, 60, 60;
        case BootReady => beepsRemaining, beepOnMs, beepOffMs := 1, 300, 60;
        case Silent => beepsRemaining, beepOnMs, beepOffMs := 0, 60, 60;
      }
      pattern := p;
      beepOn := false;
      beepNextMs := now;
    }

    method BuzzerOff(pwmOk: bool)
      modifies this
      ensures View() == Muted(config, old(View()), pwmOk)
    {
      if !Available(config) {
        return;
      }
      if pwmOk {
        tone := false;
      }
    }

    method RenderBuzzer(now: int, pwmOk: bool)
      modifies this
      ensures View() == Render(config, old(View()), now, pwmOk)
    {
      if !Audible(config) {
        lastBuzzer := Silent;
        return;
      }
      if beepsRemaining == 0 && !beepOn {
        BuzzerOff(pwmOk);
        pattern := Silent;
        lastBuzzer := Silent;
        return;
      }
      if now < beepNextMs {
        lastBuzzer := pattern;
        return;
      }
      if beepOn {
        BuzzerOff(pwmOk);
        beepOn := false;
        beepNextMs := now + beepOffMs;
        lastBuzzer := pattern;
        return;
      }
      if Available(config) {
        if !pwmOk {
          beepsRemaining := 0;
          pattern := Silent;
          lastBuzzer := Silent;
          return;
        }
        tone := true;
      }
      beepOn := true;
      beepsRemaining := beepsRemaining - 1;
      beepNextMs := now + beepOnMs;
      lastBuzzer := pattern;
    }

    /** indicator_shutdown_outputs, as far as the buzzer is concerned. */
    method ShutdownOutputs(pwmOk: bool)
      modifies this
      ensures View() == Shut(config, old(View()), pwmOk)
    {
      pattern := Silent;
      beepsRemaining := 0;
      beepOn := false;
      beepNextMs := 0;
      lastBuzzer := Silent;
      BuzzerOff(pwmOk);
    }
  }
}
