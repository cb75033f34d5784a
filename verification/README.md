# Verified model of the RP2350 six-channel relay controller

Dafny models of four parts of the repository, and proofs about them.

1. **Firmware control plane** (`HealthSpec`, `HealthModel`, `RelaySpec`, `RelayControl`, `Watchdog`, `RelayMgmt`,
   `Firmware`, `FirmwareOutcomes`, `FirmwareReasons`, `FirmwareRecords`, `FirmwareSafety`, `FirmwareWatchdog`,
   `FirmwareReboot`, `FirmwareReset`, `FirmwareBoard`, `FirmwareRaces`, `FirmwareTiming`, `FirmwareViews`,
   `FirmwareTheorems`, `FirmwareDisplay`, `Masks`). Relay control with per-channel
   pulses, the communication-loss lease and the autonomous reboot; the health model; the watchdog supervisor; the
   host's reboot work. The classes change state in place as the C code does and are proved against functions on
   values; module `Firmware` joins these functions into one step system. A delayable work item is its pending deadline
   and the number of its handlers in flight. Handlers are split where the code drops `relay_lock`: the submission of
   the autonomous reboot and its warning, the host's reset, and the publication of a report to the health module and
   the indicator are steps of their own. Every GPIO write, every `k_work_schedule` of a pulse or reboot and every
   watchdog call may fail. `FirmwareOutcomes`, `FirmwareReasons` and `FirmwareRecords` say of every step what it does,
   from the step alone and with every number written out; `FirmwareSafety`, `FirmwareWatchdog`, `FirmwareReboot`,
   `FirmwareReset`, `FirmwareBoard` and `FirmwareRaces` hold for every interleaving of the steps; `FirmwareTiming`,
   `FirmwareViews`, `FirmwareTheorems` and `FirmwareDisplay` are about behaviours whose handlers and publications run
   whole and whose time never passes a pending deadline.
2. **Wire stack** (`Bytes`, `Crc`, `Checksum`, `CrcDivision`, `Base64`, `Base64Decoding`, `Frames`, `Utf8`, `Cbor`,
   `CborProofs`, `CborRoundTrip`, `CborShortest`, `CborReader`, `Smp`). Checksum, base64 lines (RFC 4648 section 4) with
   reassembly, the CBOR subset (RFC 8949 section 3), the SMP header, and a whole call.
3. **Indicator** (`Canvas`, `Countdown`, `PulseTimes`, `Scene`, `Oled`, `Preview`, `DisplayTheorems`, `BuzzerSpec`,
   `Buzzer`). The packed display frame and the boolean grid of the preview script paint the same shapes on one notion
   of picture; the indicator keeps the pulse timings it is told; the buzzer is a timed machine stepped by renders.
4. **Daemon** (`LineReader`, `Pipeline`, `Server`, `Recovery`, `Daemon`). Request lines from chunked streams through
   two queues, and the connection with its reboot recovery under interleaving threads.

Parameters stand for what the code asks of its surroundings: answers of GPIO, kernel, PWM and watchdog calls, clock
readings, lines and chunks that arrive, outcomes of port selection, USB lookup, probes and device commands, whether a
request line parses, the build options, and the glyph table.

## Where code and expectation part

- A renewed lease does not always stop an announced reboot: `comm_loss_expired` submits the reboot after it has dropped
  the lock. docs/health-model.md:160-161 has the pending reason cleared when ownership recovery cancels the reboot;
  `FirmwareReboot.RenewalStopsRebootIff` says exactly when a renewal is effective, `RenewedYetReset` gives a run.
- A lease handler in flight switches everything off right after a renewal (`FirmwareRaces.RenewalHoldsIff`,
  `SwitchedOffAfterRenewal`), and a pulse handler in flight ends the next pulse of its channel (`PulseLastsIff`,
  `PulseCutShort`).
- After the reboot race a further renewal cancels the reboot but leaves its pending reason shown
  (`FirmwareRaces.WarningStaysIff`, `WarningOutlivesReboot`).
- A host reboot or BOOTSEL reset need not find the pins low: between off-all and reset the lock is free for at least
  the 100 ms in which USB is detached (`FirmwareReset.HighAtResetIff`, `ResetWithPinHigh`).
- A pulse dropped by a command or an expiry whose write fails is not reported, so the indicator goes on showing its bar
  (`FirmwareDisplay.StaleSlotIff`, `BarWithoutPulse`).
- Reports are published after the lock is dropped, so two commands can leave health with the masks of the earlier one
  (`FirmwareBoard.AgreeInOrder`, `ToldInWrongOrder`).
- The primary reason need not explain the state: the indicator can cause a degraded state while an RPC that was never
  ready together with GPIO is the reason shown, and GPIO can keep the state at booting with no reason shown at all
  (`HealthSpec.PrimaryExplainsState`, `IndicatorHidden`, `GpioHidden`).
- The preview says it mirrors the firmware layout; it draws pulse marks always, the firmware every other half second,
  and its glyph table has two characters the firmware draws as blanks (`DisplayTheorems.RenderersAgreeIff` is for one
  table).
- Of the start lines too short for a length, the one without text is skipped instead of being reported, because
  stripping removes half of its marker (`Frames.ShortStartReportedIff`).
- Maps with 256 entries or more have a shorter open form than the encoder's (`CborShortest.ShortestOfAllIff`).
- A pattern that replaces a sounding one leaves the PWM on if its own tone is refused (`BuzzerSpec.ToneFollows`,
  `RefusedToneSoundsOn`).
- A finished request line of 4097 to 8191 bytes is refused or ends the connection, depending on how it arrives
  (`LineReader.IndependentIff`).
- A client adopted while a shutdown is closing the connection is forgotten without being closed
  (`Recovery.ClientsAccountedFor`, `ShutdownOvertaken`).
- The reconnect thread reads the fields of a reboot recovery without the lock they are written under, so it can take
  up the device that has not reset yet and end the recovery at once (`Recovery.RecoveryExitIff`, `RecoveryCutShort`).

## Model

| member | source | states |
|---|---|---|
| `HealthModel.Model.constructor` | firmware/src/health.c:107-129 | a reset model: the snapshot of the empty call history, with no transitions counted |
| `HealthModel.Model.PrimaryReason` | firmware/src/health.c:26-47 | the first active reason of the priority list, or none |
| `HealthModel.Model.DeriveStateLocked` | firmware/src/health.c:49-81 | the state that reasons, readiness and relay masks determine, in the order of the checks |
| `HealthModel.Model.RecomputeLocked` | firmware/src/health.c:83-105 | reasons, ready-seen, primary reason, state and the transition count are all rederived; nothing else changes |
| `HealthModel.Model.SetRelayGpioReady` | firmware/src/health.c:138-145 | the model stays the one its call history determines, with this call appended |
| `HealthModel.Model.SetRpcReady` | firmware/src/health.c:147-154 | the same for RPC readiness |
| `HealthModel.Model.SetRelayState` | firmware/src/health.c:156-164 | the same for the two channel masks |
| `HealthModel.Model.SetCommOwnerTimedOut` | firmware/src/health.c:166-177 | the same for the owner timeout |
| `HealthModel.Model.SetCommRebootPending` | firmware/src/health.c:179-190 | the same for the autonomous reboot |
| `HealthModel.Model.SetHostRebootPending` | firmware/src/health.c:192-203 | the same for the host reboot |
| `HealthModel.Model.SetIndicatorDegraded` | firmware/src/health.c:205-216 | the same for the indicator |
| `HealthModel.Model.RecordRelayGpioInitFailed` | firmware/src/health.c:218-225 | the same for the latched GPIO failure |
| `HealthModel.Model.RecordRelayIoError` | firmware/src/health.c:227-234 | the same for the latched write failure |
| `HealthModel.Model.RecordRebootFailed` | firmware/src/health.c:236-245 | the same; the reboot failure is latched and both pending reasons go, whoever calls |
| `HealthModel.Model.RecordWatchdogSupervisorFailed` | firmware/src/health.c:247-254 | the same for the latched supervisor failure |
| `HealthSpec.HistoryRefinement` | firmware/src/health.c:26-254 | after any call history every part of the snapshot is what the history says without replaying the model: reasons by the last call that decided them, readiness ever seen, masks, state, primary reason, and transitions as the number of adjacent state changes |
| `HealthSpec.FirstActiveIsHighest` | firmware/src/health.c:28-46 | the primary reason is active and nothing before it in the priority list is; none means none is active |
| `HealthSpec.StateIff` | firmware/src/health.c:49-81 | after any call history each of the six states is published exactly under its own condition on active reasons, readiness and masks; relay active or normal by whether the last masks name a channel |
| `HealthSpec.PrimaryIs` | firmware/src/health.c:26-47 | after any call history the primary reason is the first active one of the nine, named in order |
| `HealthSpec.PrimaryExplainsState` | firmware/src/health.c:26-81 | after any call history the primary reason accounts for the published state, except exactly if the only active reasons are the indicator and an RPC never ready together with GPIO, or no reason is active and GPIO is not ready |
| `HealthSpec.IndicatorHidden` | firmware/src/health.c:26-81 | a degraded indicator at boot is of the first kind: degraded for the indicator, RPC shown |
| `HealthSpec.GpioHidden` | firmware/src/health.c:68-81 | an RPC ready before GPIO is of the second: booting, no reason shown |
| `HealthSpec.FailuresNeverClear` | firmware/src/health.c:218-254 | the four failure reasons stay active through any further calls |
| `HealthSpec.BootingNeverRecurs` | firmware/src/health.c:68-74 | once GPIO and RPC were ready together, booting is not shown while GPIO is ready |
| `Masks.OneBit` | firmware/src/relay.c:253-254 | testing a mask against the bit of a channel is membership in the set of channels |
| `Masks.Union` | firmware/src/relay.c:226 | or-ing masks is union |
| `Masks.Difference` | firmware/src/relay.c:217 | and-not is set difference |
| `Masks.Intersection` | firmware/src/relay.c:137 | and-ing masks is intersection |
| `Masks.ZeroMask` | firmware/src/relay.c:156 | a mask is zero exactly for the empty set |
| `Masks.AllChannels` | firmware/src/relay.c:298 | the bit mask of six relays is the set of channels 0 to 5 |
| `RelayControl.Control.RelayInit` | firmware/src/relay.c:403-448 | with every pin configured: all pins low, no pulse, lease by policy, health told; otherwise the pins before the first failing one are low, the rest of the state is untouched and the GPIO failure is latched |
| `RelayControl.Control.PublishIndicatorState` | firmware/src/relay.c:87-99 | health gets the two masks, stale or not, the indicator the pulse mask and, if there is one, the report of the pulse timings; relay state is untouched |
| `RelayControl.Control.SnapshotPulseTimingLocked` | firmware/src/relay.c:106-122 | the report: duration and time left of every channel in the mask, nothing for the others |
| `RelayControl.Control.ApplyStateLocked` | firmware/src/relay.c:124-139 | pins are written in channel order up to the first failure, which is latched; the mask changes only if all succeed |
| `RelayControl.Control.SetChannelLocked` | firmware/src/relay.c:220-240 | one pin and its mask bit, or the latched failure with the mask unchanged |
| `RelayControl.Control.ScheduleLease` | firmware/src/relay.c:146-170 | armed with the timer at now plus timeout if the policy asks for it, else disarmed with the timer dropped |
| `RelayControl.Control.DisarmIfIdle` | firmware/src/relay.c:172-179 | under the energized-only policy an idle board is disarmed |
| `RelayControl.Control.CancelReboot` | firmware/src/relay.c:181-191 | both reboot flags and both pending timers go, handlers in flight stay |
| `RelayControl.Control.CancelPulsesLocked` | firmware/src/relay.c:208-218 | exactly the chosen channels lose their pulse, duration and timer |
| `RelayControl.Control.RelaySet` | firmware/src/relay.c:502-535 | the whole new state and answer for every channel number and write outcome, with its report published; nothing is published after a failed write |
| `RelayControl.Control.RelaySetAll` | firmware/src/relay.c:537-570 | the same for all channels at once, including masks with foreign bits |
| `RelayControl.Control.RelayPulse` | firmware/src/relay.c:586-637 | the same for a pulse: invalid, busy, failed write, refused timer, started |
| `RelayControl.Control.RelayCommLossRenew` | firmware/src/relay.c:639-652 | the lease is renewed, a scheduled reboot canceled and health told; the indicator gets the pulse mask of health and the bars stay |
| `RelayControl.Control.PulseExpired` | firmware/src/relay.c:242-279 | a running pulse ends with its pin written off and is reported, unless that write fails; a canceled one does nothing |
| `RelayControl.Control.CommLossExpired` | firmware/src/relay.c:281-323 | an armed lease switches everything off; a failed off-all leaves it armed without a timer |
| `RelayControl.Control.RelaysTimedOut` | firmware/src/relay.c:300-323 | what the policy does after a successful off-all, and whether a reboot is wanted |
| `RelayControl.Control.SubmitReboot` | firmware/src/relay.c:325-351 | the reboot is submitted without the lock; a refused submission takes back its flags and the timer of its warning and latches the failure |
| `RelayControl.Control.ScheduleRebootPendingIndication` | firmware/src/relay.c:193-206 | the pending reason at once for a delay of ten seconds or less, else its timer ten seconds before the reboot |
| `RelayControl.Control.LeaseReboot` | firmware/src/relay.c:325-353 | the two in turn; nothing is warned of when the submission was refused |
| `RelayControl.Control.WarningExpired` | firmware/src/relay.c:360-381 | the pending reason is shown only if reboot and warning are still scheduled |
| `Watchdog.Supervisor.RecordSupervisorFailureLocked` | firmware/src/watchdog_supervisor.c:146-151 | unhealthy, one more feed error, failure latched in health |
| `Watchdog.Supervisor.CheckRuntimeReady` | firmware/src/watchdog_supervisor.c:67-74 | ready exactly if the call history leaves health out of booting and RPC ready |
| `Watchdog.Supervisor.Launch` | firmware/src/watchdog_supervisor.c:153-189 | started at most once, only when ready and set up; a failed set-up is latched; the last-reset cause is read anew at every call |
| `Watchdog.Supervisor.TakeSample` | firmware/src/watchdog_supervisor.c:198-199 | the handler starts from a copy of the active reasons |
| `Watchdog.Supervisor.WorkHandler` | firmware/src/watchdog_supervisor.c:201-225 | one feed and a new timer, or none and no timer, by the sampled reasons and the answer of the hardware |
| `RelayMgmt.Handlers.RequestHandler` | firmware/src/relay_mgmt.c:718-737 | an accepted reboot or BOOTSEL request schedules its work one second ahead and shows the pending reason; a refused one latches the failure |
| `RelayMgmt.Handlers.OffAll` | firmware/src/relay_mgmt.c:655-662 | the first half of the handler is its step: everything off and published, or the failure latched |
| `RelayMgmt.Handlers.ResetBoard` | firmware/src/relay_mgmt.c:664-676 | the second half is its step: the board is reset, or, if the reset call returns, the failure is latched |
| `RelayMgmt.Handlers.WorkHandler` | firmware/src/relay_mgmt.c:651-703 | undisturbed the handler is the two steps, the second exactly after a successful off-all |
| `RelayMgmt.Handlers.HeartbeatHandler` | firmware/src/relay_mgmt.c:840-853 | a heartbeat is the renewal step with its publication of the health snapshot |
| `FirmwareSafety.StepKeeps` | firmware/src/relay.c:124-401 | every indivisible step of every interleaving keeps the protection invariant, and a latched write failure stays |
| `FirmwareSafety.InterleavedLease` | firmware/src/relay.c:242-319 | for every interleaving of handlers split at relay_lock: an energized board under the energized-only or the owner policy has its lease armed with timer pending or handler in flight, every pulse has its timer or handler, pulses are within the state mask, pins show the mask; unless a write failure is latched |
| `FirmwareSafety.ArmedIff` | firmware/src/relay.c:141-170 | in every interleaving a successful command or heartbeat leaves the lease armed exactly under the owner policy, or under the energized-only policy with a relay on, and its timer due one timeout later |
| `FirmwareOutcomes.AnswerIs` | firmware/src/relay.c:502-652 | every command answers success, invalid argument, busy or I/O failure exactly under its own conditions, with their bounds written out |
| `FirmwareOutcomes.ChannelStep` | firmware/src/relay.c:124-401 | every step takes every channel (on, pulsing, duration, timer) to a state written out from the step and that channel alone |
| `FirmwareOutcomes.LeaseStep` | firmware/src/relay.c:141-353 | every step takes the lease (armed, timer) where the step, the policy and the relays it leaves say |
| `FirmwareOutcomes.RebootStep` | firmware/src/relay.c:181-401 | every step takes the autonomous reboot (flags, warning timer, reboot timer) where the step says; what succeeds cancels it |
| `FirmwareReasons.ReasonStep` | firmware/src/health.c:26-254 | each health reason is set and cleared by exactly the steps named for it |
| `FirmwareRecords.BootIs` | firmware/src/relay.c:403-448 | after a start everything is off, nothing is in flight, only the RPC reason is active, and the lease runs exactly under the owner policy |
| `FirmwareRecords.FlightStep` | firmware/src/relay.c:242-401 | handlers start when their timer expires and each of their parts runs once |
| `FirmwareRecords.HostStep` | firmware/src/relay_mgmt.c:651-737 | a host request is due a second later unless one of its kind is under way; its handler goes on to the reset exactly after a successful off-all; nothing but these handlers and the autonomous reboot resets the board |
| `FirmwareRecords.RecordStep` | firmware/src/relay.c:502-652 | the records of the last renewal, of the start of each pulse and of a refused timer change exactly with the steps that they record |
| `Watchdog.StartIs` | firmware/src/watchdog_supervisor.c:153-189 | the supervisor starts once, exactly when all is ready and the hardware can be set up; a set-up that fails is an error and a latched reason |
| `Watchdog.WorkIs` | firmware/src/watchdog_supervisor.c:201-225 | a handler of a supervisor in operation feeds exactly if none of the three fatal reasons, each named, is in its sample and the hardware takes the feed; it sets the timer exactly if it fed and the kernel accepts |
| `Watchdog.RuntimeReadyIff` | firmware/src/watchdog_supervisor.c:67-74 | the runtime is ready exactly if RPC is and GPIO is or some recovery, fault or degradation keeps health out of booting |
| `FirmwareWatchdog.KeepsFeeding` | firmware/src/watchdog_supervisor.c:191-225 | in every interleaving in which no fatal reason is active and nothing is refused, a started supervisor stays in operation, has fed at every handling, and the next handling feeds and sets the timer an interval ahead |
| `FirmwareWatchdog.NoFeeding` | firmware/src/watchdog_supervisor.c:191-225 | once one of the three fatal reasons is active no step of any run feeds, except one by a handler that sampled before |
| `FirmwareWatchdog.FatalStays` | firmware/src/health.c:218-254 | no step of the system makes one of these reasons go away |
| `FirmwareWatchdog.FailSafeChain` | firmware/src/relay.c:298-318 | a relay on under the energized-only or the owner policy with no lease timer or handler left implies the latched write failure and an end to watchdog feeding, across the three modules |
| `FirmwareReset.StepDriven` | firmware/src/relay.c:124-139 | the level of every pin after every step, from the writes of the step up to its first failure |
| `FirmwareReset.HighAtResetIff` | firmware/src/relay_mgmt.c:651-703 | in every interleaving a host reboot or BOOTSEL reset comes after a successful off-all of its kind, and finds a pin high exactly if a step since then left it high and no later one has written it |
| `FirmwareReset.RaisesIff` | firmware/src/relay.c:124-139 | the steps that leave a pin high are exactly the set, set-all and pulse commands that switch its channel on and the failed writes that leave it so |
| `FirmwareReset.ResetWithPinHigh` | firmware/src/relay_mgmt.c:657-673 | a concrete run in which a relay set between off-all and reset is on at the reset |
| `FirmwareBoard.StepBoard` | firmware/src/relay.c:502-637 | a step makes a report of the new masks exactly if it is a control command that succeeds, an effective pulse or lease expiry or a host off-all; any other leaves reports, masks in health and, unless something fails, relay masks as they were |
| `FirmwareBoard.MasksAgreeIff` | firmware/src/relay.c:87-99 | in every interleaving, until a write or pulse submission fails, the newest report carries the masks of the relay module; so health agrees with it exactly if it was told last what that report says |
| `FirmwareBoard.AgreeInOrder` | firmware/src/relay.c:87-99 | and it agrees whenever no report is waiting to be told, if reports are told in the order in which they were made, whatever runs in between |
| `FirmwareBoard.ToldInWrongOrder` | firmware/src/relay.c:526-532 | a concrete run of two commands whose reports are told in the wrong order: health has a relay on that is off |
| `FirmwareReboot.RenewalStopsRebootIff` | firmware/src/relay.c:319-353 | a heartbeat or successful command rules out an autonomous reboot until the next lease expiry, exactly if no lease handler stood between dropping the lock and submitting the reboot and no reboot handler was in flight |
| `FirmwareReboot.RenewedYetReset` | firmware/src/relay.c:325-340 | a concrete run in which the board resets itself in the millisecond of a renewal |
| `FirmwareTiming.MoveTimed` | firmware/src/relay.c:146-401 | with handlers run whole and time never passing a deadline, every move keeps all deadlines exact |
| `FirmwareTheorems.LeaseSafety` | firmware/src/relay.c:146-170 | in every timed behaviour: energized under the energized-only or the owner policy means lease armed and timer due exactly at last renewal plus timeout, not yet passed; unless a write failure is latched |
| `FirmwareTheorems.PulseExactness` | firmware/src/relay.c:208-279 | pulse bit, pending timer and nonzero duration are one fact, the deadline is start plus duration, pulses are within the state mask, whatever writes or submissions fail |
| `FirmwareTheorems.ThreeViews` | firmware/src/relay.c:87-139 | pins equal the state mask unless a write failure is latched, and the masks in health and the pulse mask of the indicator equal those of the relay module while no write and no pulse submission has failed |
| `FirmwareTheorems.HostResetWithPinsLow` | firmware/src/relay_mgmt.c:651-703 | with handlers run whole a host reboot or BOOTSEL reset finds all six pins low, whatever failed before |
| `FirmwareTheorems.RebootSafety` | firmware/src/relay.c:181-401 | the pending reason is shown only while the reboot is scheduled; a pending or executed autonomous reboot finds no pulse and, unless a write failure is latched, no relay on and all pins low |
| `FirmwareTheorems.RenewalStopsReboot` | firmware/src/relay.c:181-191 | with handlers run whole, after a heartbeat or successful command no autonomous reboot is pending or happens until the lease expires again |
| `FirmwareTheorems.StuckLeaseStarvesWatchdog` | firmware/src/relay.c:298-318 | with handlers run whole, an energized board without a lease timer means the latched failure and not one more feed |
| `FirmwareTheorems.FeedsOnTime` | firmware/src/watchdog_supervisor.c:191-225 | with handlers run whole, an expiry of the timer of a supervisor in operation feeds exactly if none of the three fatal reasons is active, and then sets the next one an interval later |
| `FirmwareTheorems.SilentHostGoesDark` | firmware/src/relay.c:281-319 | under either policy with a timeout, a host silent for longer than it finds every relay off and every pin low, unless a write failure is latched |
| `FirmwareTheorems.MoveIsRun` | firmware/src/relay.c:242-401 | a whole handler is a run of the split steps, so what holds of all runs holds of all behaviours |
| `FirmwareRaces.RenewalHoldsIff` | firmware/src/relay.c:281-323 | a heartbeat or successful command keeps the owner from being timed out until the lease expires again, exactly if no lease handler was in flight or the policy is the one without timeout |
| `FirmwareRaces.SwitchedOffAfterRenewal` | firmware/src/relay.c:281-300 | a concrete run in which a relay just switched on is switched off in the same millisecond by a lease handler in flight |
| `FirmwareRaces.PulseLastsIff` | firmware/src/relay.c:242-262 | a started pulse lasts through heartbeats, commands for other channels, further pulse commands and all handlers, until its own timer expires or a set of its channel, a set-all, the lease or a host reset comes, exactly if no handler of an earlier pulse of its channel was in flight |
| `FirmwareRaces.PulseCutShort` | firmware/src/relay.c:242-262 | a concrete run in which a pulse of a second is over in the millisecond it started |
| `FirmwareRaces.WarningStaysIff` | firmware/src/relay.c:181-191 | a renewal leaves the pending reason shown, through every later command and handler until the lease expires again or a reboot fails, exactly if it finds the reason shown and no reboot scheduled |
| `FirmwareRaces.WarningOutlivesReboot` | firmware/src/relay.c:319-353 | a concrete run to such a state, with no reboot pending |
| `FirmwareViews.MoveBoard` | firmware/src/relay.c:87-122 | after every whole handler health and indicator have the masks of the newest report; the slots of the indicator are those of the state reported, or what they were if nothing was reported |
| `FirmwareDisplay.RunningSlot` | firmware/src/relay.c:106-122 | in every timed behaviour a running pulse has its slot with its duration and its deadline, unless the newest report was made at the deadline itself |
| `FirmwareDisplay.StaleSlotIff` | firmware/src/relay.c:515-532 | and a channel that is not pulsing has one exactly if its pulse was dropped by a command or expiry whose write failed, with no report since |
| `FirmwareDisplay.BarWithoutPulse` | firmware/src/relay.c:515-532 | a concrete behaviour in which a set whose write fails leaves a bar of a second and a channel shown as pulsing that is not |
| `FirmwareDisplay.BarMeetsDeadline` | firmware/src/indicator.c:741-773 | so a running pulse is shown as pulsing, and its bar at any later time is the one of the time its timer still has, and never grows |
| `Checksum.Crc16ItuT` | tools/usb_rpc_smoke.py:42-51 | the byte loop computes the bit-serial shift register, for every seed |
| `Crc.FeedLinear` | tools/usb_rpc_smoke.py:42-51 | the register is linear under bitwise sum of streams and seeds |
| `Crc.ShiftBijective` | tools/usb_rpc_smoke.py:46-50 | the one-bit step is a bijection on 16-bit registers |
| `Crc.CheckValue` | tools/usb_rpc_smoke.py:231-232 | sixteen appended bits give zero exactly if they are the checksum |
| `Crc.BurstDetected` | tools/usb_rpc_smoke.py:42-51 | a nonzero error within sixteen consecutive bits has a nonzero checksum at any length |
| `Crc.OddErrorDetected` | tools/usb_rpc_smoke.py:42-51 | so has every error in an odd number of bits |
| `CrcDivision.RemainderIff` | tools/usb_rpc_smoke.py:42-51 | the register after any stream is the remainder, and the only one, of the stream times x^16, with the seed in front, on division by x^16 + x^12 + x^5 + 1; polynomials have their own sum and product |
| `CrcDivision.SumIsRemainder` | tools/usb_rpc_smoke.py:42-51 | so the checksum of a packet is the remainder of the packet times x^16 |
| `CrcDivision.PacketAt` | tools/usb_rpc_smoke.py:44-46 | the coefficients of a packet are its bits, the highest bit of the first byte first |
| `Checksum.FramePasses` | tools/usb_rpc_smoke.py:198-201 | a packet and two check bytes pass exactly if the bytes are the checksum |
| `Checksum.ErrorsRejected` | tools/usb_rpc_smoke.py:228-233 | no such error turns a passing frame into a passing frame |
| `Base64.RoundTrip` | tools/usb_rpc_smoke.py:219 | decoding encoded bytes gives them back |
| `Base64.EncodedAt` | tools/usb_rpc_smoke.py:201 | each character written stands for its six bits of the data in the alphabet of RFC 4648, or is padding |
| `Base64Decoding.MeaningIff` | tools/usb_rpc_smoke.py:219 | the characters of the alphabet stand for their places in it and the equals sign for padding |
| `Base64Decoding.DecodedIs` | tools/usb_rpc_smoke.py:219 | on any text the lenient decoder gives the whole bytes of the characters of the alphabet before the first padding that completes a group of four, or of all of them, or fails if these are no multiple of four |
| `Frames.SerialFrame` | tools/usb_rpc_smoke.py:198-201 | the start line of length, packet and checksum, or an error when the length does not fit |
| `Frames.DecodedFrames` | tools/usb_rpc_smoke.py:204-235 | the loop is the line-by-line reader, with its four kinds of error |
| `Frames.ReturnedIffChecked` | tools/usb_rpc_smoke.py:228-233 | a packet is returned exactly if the announced length is there and ends in its checksum |
| `Frames.TakeLine` | tools/usb_rpc_smoke.py:208-226 | what a line written for any piece, empty ones included, does to any reader |
| `Frames.TakeIs` | tools/usb_rpc_smoke.py:208-226 | what any line whatever does to any reader, with markers and errors written out |
| `Frames.CheckIs` | tools/usb_rpc_smoke.py:228-233 | what becomes of the bytes taken in: go on, too many, bad checksum |
| `Frames.StripIs` | tools/usb_rpc_smoke.py:211 | a stripped line is the line without the ASCII spaces around it |
| `Frames.ShortStartReportedIff` | tools/usb_rpc_smoke.py:211-222 | a start line for a piece too short for a length is reported, exactly if the piece is not empty; the empty one is skipped |
| `Frames.Reassembly` | tools/usb_rpc_smoke.py:204-235 | any cut of a frame into a start line of two bytes or more and continuation lines, with other lines between and decodable orphans before, is read back as the packet |
| `Frames.SerialFrameReadBack` | tools/usb_rpc_smoke.py:198-235 | what serial_frame writes is read back |
| `Frames.DamagedFrameRejected` | tools/usb_rpc_smoke.py:204-235 | a frame hit by a burst of sixteen bits or an odd number of bit errors is reported as damaged, for any cut into lines with other lines between and orphans before |
| `CborReader.EncodeValue` | tools/usb_rpc_smoke.py:81-90 | the encoding of a value, or the error of a negative number, a number too wide or a text with surrogates |
| `CborReader.EncodeMap` | tools/usb_rpc_smoke.py:93-98 | the loop over the items appends the encoding of each key and value |
| `CborReader.Reader.Read` | tools/usb_rpc_smoke.py:106-111 | the next bytes and the offset past them, or failure exactly when too few are left |
| `CborReader.Reader.NextIsBreak` | tools/usb_rpc_smoke.py:113-114 | the rest starts with a break |
| `CborReader.Reader.ReadBreak` | tools/usb_rpc_smoke.py:116-119 | one break consumed, or failure |
| `CborReader.Reader.ReadLen` | tools/usb_rpc_smoke.py:121-132 | the argument in any of the five widths |
| `CborReader.Reader.ReadChunk` | tools/usb_rpc_smoke.py:144 | the bytes of announced length |
| `CborReader.Reader.ReadText` | tools/usb_rpc_smoke.py:164-165 | text of announced length, or failure if it is not UTF-8 |
| `CborReader.Reader.ReadIndefiniteText` | tools/usb_rpc_smoke.py:134-146 | chunks up to the break, decoded together; ends on every input because bytes are used up |
| `CborReader.Reader.ReadMapEntry` | tools/usb_rpc_smoke.py:148-152 | one key and value assigned into the entries read so far |
| `CborReader.Reader.ReadOpenMap` | tools/usb_rpc_smoke.py:168-172 | entries up to the break |
| `CborReader.Reader.ReadMap` | tools/usb_rpc_smoke.py:174-177 | as many entries as announced, up to 2^64-1 |
| `CborReader.Reader.ReadValue` | tools/usb_rpc_smoke.py:154-180 | the parse of the bytes from the offset, on every input, with the offset at its end |
| `CborReader.ReadWholeMap` | tools/usb_rpc_smoke.py:183-190 | a map that uses up the payload, or failure |
| `Utf8.WellFormedIff` | tools/usb_rpc_smoke.py:146 | the texts that decode are exactly the encodings of sequences of scalar values (RFC 3629 section 4) |
| `Utf8.LeadIff` | tools/usb_rpc_smoke.py:146 | a character of one to four bytes is read exactly where the grammar of RFC 3629 section 4 has one |
| `CborProofs.AcceptedExactly` | tools/usb_rpc_smoke.py:101-180 | a value is read off a byte string exactly if some form of it in the accepted subset of RFC 8949 is a prefix |
| `CborProofs.HeadIs` | tools/usb_rpc_smoke.py:121-132 | the heads of the five widths, byte by byte |
| `CborProofs.FormIs` | tools/usb_rpc_smoke.py:134-180 | the six kinds of accepted items, byte by byte |
| `CborRoundTrip.HeadIsShortest` | tools/usb_rpc_smoke.py:54-78 | a head exists exactly below 2^32 and every other accepted head of the same argument is longer (RFC 8949 section 4.1) |
| `CborRoundTrip.EncodesCanon` | tools/usb_rpc_smoke.py:81-98 | encoding succeeds exactly if no number is negative, all texts are well-formed and all numbers, lengths and counts are below 2^32, and gives the canonical form |
| `CborRoundTrip.RoundTrip` | tools/usb_rpc_smoke.py:81-180 | for any suffix: encoded values read back as themselves and stop at their end, exactly for values without repeated keys |
| `CborRoundTrip.MapRoundTrip` | tools/usb_rpc_smoke.py:93-190 | decode_map of encode_map is the dictionary |
| `CborRoundTrip.DecodedDistinct` | tools/usb_rpc_smoke.py:148-152 | no accepted byte string decodes to a map with a repeated key |
| `CborRoundTrip.PrefixFree` | tools/usb_rpc_smoke.py:81-98 | no encoding is a prefix of another |
| `CborRoundTrip.OpenFormsAgree` | tools/usb_rpc_smoke.py:134-177 | chunked texts and open maps read as their announced-length forms do (RFC 8949 section 3.2) |
| `CborShortest.EncodingIsShortest` | tools/usb_rpc_smoke.py:54-98 | among the forms that announce their lengths none is shorter |
| `CborShortest.OpenMapIsShorter` | tools/usb_rpc_smoke.py:71-98 | the same entries as an open map take fewer bytes exactly from 256 entries on |
| `CborShortest.ShortestOfAllIff` | tools/usb_rpc_smoke.py:54-98 | among all accepted forms of a value none is shorter than the encoding, exactly if no map in it, at any depth, has 256 entries or more |
| `Smp.HeaderFields` | tools/usb_rpc_smoke.py:193-195 | what a receiver reads from the eight header bytes |
| `Smp.RequestIs` | tools/usb_rpc_smoke.py:193-195 | the packet of a request, byte by byte: version two, group 64, sequence number 1 |
| `Smp.BodyIs` | tools/usb_rpc_smoke.py:247-259 | the checks of a response in their order, each on its bytes |
| `Bytes.DigitOf` | tools/usb_rpc_smoke.py:193-195 | a byte of a big-endian number is the digit that its place says |
| `Smp.AnswersExactly` | tools/usb_rpc_smoke.py:247-259 | a packet passes the response checks exactly if, flags and reserved bits aside, it is its payload under the response header |
| `Smp.AnswerRoundTrip` | tools/usb_rpc_smoke.py:238-261 | a dictionary answered under the request header comes back through frame, header and CBOR, whatever the pieces and other lines |
| `Smp.RequestIsNoAnswer` | tools/usb_rpc_smoke.py:247-255 | an echoed request is refused |
| `Smp.Call` | tools/usb_rpc_smoke.py:238-261 | one request line written, then the answer of the lines that arrive, with every error |
| `Countdown.BarInsideCell` | firmware/src/indicator.c:741-773 | the bar shows exactly until the pulse ends, its radius is at most 8 and it stays in the columns cell_x+1 to cell_x+15 |
| `Countdown.NeverGrowsIff` | firmware/src/indicator.c:755-764 | taken alone, the 32-bit arithmetic makes a bar that never grows, exactly if the time left fits 32 bits |
| `Countdown.RadiiAgreeIff` | firmware/src/indicator.c:755-764 | taken alone, it gives the radius of the preview exactly if the time left fits 32 bits or its low 32 bits still give a full bar |
| `PulseTimes.Indicator.constructor` | firmware/src/indicator.c:1371-1372 | no channel has a slot |
| `PulseTimes.Indicator.SetRelayTimedState` | firmware/src/indicator.c:1426-1458 | a slot with the end of the pulse for exactly the channels in both masks with a duration and time left; none for the others, whatever they had |
| `PulseTimes.TimeLeftFits` | firmware/src/indicator.c:1451-1452 | whatever was reported, every later render has less than 2^32 ms left |
| `PulseTimes.BarsAreExact` | firmware/src/indicator.c:741-773 | so every later render shows the bar of the exact time left, as the preview does, and it never grows |
| `Oled.DotPacked` | firmware/src/indicator.c:923-935 | setting or clearing bit y%8 of byte (y/8)*128+x changes one pixel and no other |
| `Oled.Display.Clear` | firmware/src/indicator.c:1041 | a blank picture |
| `Oled.Display.DrawHline` | firmware/src/indicator.c:687-692 | paints a clipped horizontal line, every other pixel kept, within the frame |
| `Oled.Display.DrawVline` | firmware/src/indicator.c:694-699 | paints a clipped vertical line; the column is not checked, so one off the screen comes out eight rows further down |
| `Oled.Display.ClearVline` | firmware/src/indicator.c:701-706 | clears one in the same way |
| `Oled.Display.DrawRect` | firmware/src/indicator.c:708-722 | paints a filled rectangle or the four sides of one in eight-bit coordinates, empty ones included |
| `Oled.Display.SidesOnScreen` | firmware/src/indicator.c:718-721 | on the screen the four sides are the outline of the rectangle |
| `Oled.Display.DrawPulseMark` | firmware/src/indicator.c:724-739 | paints or clears two blocks of two by two |
| `Oled.Display.DrawPulseCountdown` | firmware/src/indicator.c:741-773 | paints the bar of the computed radius, or nothing |
| `Oled.Display.SetPixel` | firmware/src/indicator.c:923-928 | paints one pixel if it is on the screen |
| `Oled.Display.ClearPixel` | firmware/src/indicator.c:930-935 | clears one |
| `Oled.Display.DrawChar` | firmware/src/indicator.c:937-952 | paints or clears exactly the glyph, its coordinates modulo 256 |
| `Oled.DisplayTextWidth` | firmware/src/indicator.c:954-966 | the text width modulo 256 |
| `Oled.Display.DrawText` | firmware/src/indicator.c:968-978 | paints the characters that start at column 123 or before, rows modulo 256; up to row 249 that is the text as it stands |
| `Oled.Display.DrawAnnunciators` | firmware/src/indicator.c:980-1004 | paints the words of the top line |
| `Oled.Display.RenderFrame` | firmware/src/indicator.c:1020-1080 | the frame shows the picture of the modes, masks, timings and time, for either cell order |
| `Oled.FirmwareScreenIs` | firmware/src/indicator.c:1006-1074 | each cell: its channel in either order, label, filling, blinking mark, and a bar that reaches more than k columns exactly while more than k eighths of the pulse are left |
| `Oled.FirmwareWordsAre` | firmware/src/indicator.c:631-685 | the lamps, and the words of every mode and detail |
| `Scene.PictureLit` | firmware/src/indicator.c:1041-1080 | the picture drawn shape over shape, with erasing, has exactly the pixels of a direct description by row and column |
| `Scene.SamePictureIff` | firmware/src/indicator.c:1049-1074 | two screens differing at most in marks and bars look the same exactly if those agree |
| `Preview.Frame.SetPixel` | scripts/generate-oled-indicator-preview.py:232-234 | paints one pixel if it is on the screen |
| `Preview.Frame.ClearPixel` | scripts/generate-oled-indicator-preview.py:236-238 | clears one |
| `Preview.Frame.DrawHline` | scripts/generate-oled-indicator-preview.py:240-242 | paints a horizontal line |
| `Preview.Frame.DrawVline` | scripts/generate-oled-indicator-preview.py:244-246 | paints a vertical line |
| `Preview.Frame.ClearVline` | scripts/generate-oled-indicator-preview.py:248-250 | clears one |
| `Preview.Frame.DrawRect` | scripts/generate-oled-indicator-preview.py:252-260 | paints a filled rectangle or the four sides of one, empty ones included |
| `Preview.Frame.DrawChar` | scripts/generate-oled-indicator-preview.py:262-272 | paints or clears exactly the glyph; fails exactly for a character without one |
| `Preview.Frame.DrawText` | scripts/generate-oled-indicator-preview.py:274-281 | paints the characters that start at column 123 or before; fails exactly if one of them has no glyph |
| `Preview.Frame.DrawPulseMark` | scripts/generate-oled-indicator-preview.py:283-291 | paints or clears two blocks of two by two |
| `Preview.Frame.DrawPulseCountdown` | scripts/generate-oled-indicator-preview.py:293-303 | paints the bar of the computed radius, or nothing |
| `Preview.RenderFrame` | scripts/generate-oled-indicator-preview.py:306-349 | a new frame with the picture of the state, or failure exactly for a missing glyph |
| `Preview.PreviewScreenIs` | scripts/generate-oled-indicator-preview.py:306-347 | the same of the preview, with pulses of a second and marks that do not blink |
| `DisplayTheorems.RenderersAgreeIff` | scripts/generate-oled-indicator-preview.py:1-7 | the preview mirrors the firmware frame, for the same labels, masks and flags and unreversed cells, exactly if the marks are in the visible half of their blinking or nothing pulses, and of every pulsing channel both or neither have time left, and the same eighths of the duration |
| `DisplayTheorems.SameTimeLeft` | scripts/generate-oled-indicator-preview.py:293-303 | equal time left of second-long pulses gives equal bars, at any clock reading |
| `DisplayTheorems.RenderBoth` | scripts/generate-oled-indicator-preview.py:306-349 | the two programs run one after the other: the same comparison for the frames they leave |
| `Buzzer.Buzzer.SetBuzzer` | firmware/src/indicator.c:1125-1168 | the pattern with its number and lengths of beeps, from now; ignored without feedback or hardware |
| `Buzzer.Buzzer.BuzzerOff` | firmware/src/indicator.c:1185-1197 | the tone is off if there is a buzzer and its write is not refused |
| `Buzzer.Buzzer.RenderBuzzer` | firmware/src/indicator.c:1199-1249 | one render: idle, waiting, tone off, tone on, or abandoned on a refused tone |
| `Buzzer.Buzzer.ShutdownOutputs` | firmware/src/indicator.c:1490-1514 | no pattern is left, and the tone is off unless its write is refused |
| `BuzzerSpec.EdgeLowers` | firmware/src/indicator.c:1215-1248 | 2 * beeps left + beeping falls by one at each edge and never rises |
| `BuzzerSpec.PatternTones` | firmware/src/indicator.c:1125-1249 | for any render times a pattern makes at most its number of tones, each at least as long and as far apart as it says |
| `BuzzerSpec.PatternPlays` | firmware/src/indicator.c:1125-1249 | with no write refused and renders no further apart than a gap, each of the five patterns makes exactly its number of tones, and every tone and pause lasts its 60, 250 or 300 ms and less than a gap more; the first tone starts with the first render, silence has none |
| `BuzzerSpec.PatternReported` | firmware/src/indicator.c:1199-1249 | the pattern reported is the one set, up to the first render that finds all of it over |
| `BuzzerSpec.PatternEnds` | firmware/src/indicator.c:1199-1249 | with renders no further apart than a gap, the pattern is over within a stated time of its first render, and PWM and pattern are then silent for good exactly unless the PWM was still sounding and the last write was refused |
| `BuzzerSpec.RebootWarningEnds` | firmware/src/indicator.c:59-66 | the reboot pattern is over 500 ms after its first render with renders every 100 ms, and within 795 ms with renders merely no further apart; silent for good under the same condition |
| `BuzzerSpec.ToneFollows` | firmware/src/indicator.c:1125-1249 | after any history the PWM sounds exactly if the last write it accepted switched it on, and it does so with no beep on exactly if since that write a pattern was set, a write refused or the outputs were shut down |
| `BuzzerSpec.AcceptedToneFollows` | firmware/src/indicator.c:1125-1249 | if no write is refused, every render leaves the PWM sounding exactly while a beep is on |
| `BuzzerSpec.RefusedToneSoundsOn` | firmware/src/indicator.c:1234-1243 | a concrete history, with one refused write, that leaves the PWM sounding with no beep on and none left |
| `LineReader.SplitConcat` | host/rp2350_relay_6ch/daemon.py:671-684 | splitting the rest together with the next chunk splits the whole stream |
| `LineReader.SplitIff` | host/rp2350_relay_6ch/daemon.py:671-684 | lines and tail are the one way to write a stream as lines that end in a newline and a rest without one |
| `LineReader.IndependentIff` | host/rp2350_relay_6ch/daemon.py:660-687 | the outcome of a stream is the same for all ways of cutting it into reads exactly if its first line over 4096 bytes is not a finished one of 4097 to 8191 bytes |
| `LineReader.OutcomeIs` | host/rp2350_relay_6ch/daemon.py:660-687 | with all lines within 4096 bytes exactly they are queued, and a tail stays in the buffer if within 4096 bytes, else ends the connection; a first long line of 8192 bytes or more ends it after the lines before |
| `Pipeline.StepConserves` | host/rp2350_relay_6ch/daemon.py:660-733 | every step of reader, parser and worker, with a read taken line by line, keeps lines numbered, ordered and each in exactly one place |
| `Pipeline.Conservation` | host/rp2350_relay_6ch/daemon.py:660-733 | over any run and any number of clients: accepted = answered + queued + in progress, nothing answered twice, exactly the well-formed requests of up to 4096 bytes run, in accepted order, one answer per line when idle |
| `Pipeline.ClientServed` | host/rp2350_relay_6ch/daemon.py:660-684 | a client whose lines and tail are within 4096 bytes is never dropped and has had exactly the lines of its own stream accepted, in order; during a read the lines still in its buffer are the rest |
| `Pipeline.DroppedExactly` | host/rp2350_relay_6ch/daemon.py:685-687 | a client is told that it is dropped exactly if its chunks say so, and once |
| `Server.Server.AcceptClient` | host/rp2350_relay_6ch/daemon.py:651-658 | a new connection with an empty buffer |
| `Server.Server.ReceiveChunk` | host/rp2350_relay_6ch/daemon.py:669-671 | a chunk is put at the end of the buffer |
| `Server.Server.TakeOne` | host/rp2350_relay_6ch/daemon.py:672-684 | the first line of the buffer is numbered, then queued or refused at once |
| `Server.Server.FinishRead` | host/rp2350_relay_6ch/daemon.py:685-687 | a client whose unfinished line is too long is told so and closed |
| `Server.Server.ReadClient` | host/rp2350_relay_6ch/daemon.py:660-687 | a read with no other thread in between is all of its steps |
| `Server.WholeReadIs` | host/rp2350_relay_6ch/daemon.py:660-687 | it numbers the lines of buffer and chunk in turn, queues the short and answers the long ones, keeps the tail, and closes the connection exactly if the tail is too long |
| `Server.Server.CloseClient` | host/rp2350_relay_6ch/daemon.py:689-697 | the connection is closed and nothing queued is lost |
| `Server.Server.ParserRound` | host/rp2350_relay_6ch/daemon.py:705-719 | a line is answered with its error or queued as a request |
| `Server.Server.WorkerRound` | host/rp2350_relay_6ch/daemon.py:721-733 | a request is run and answered once |
| `Recovery.ConnectedAgrees` | host/rp2350_relay_6ch/daemon.py:414-478 | in every state of every interleaving connected, holding a client and knowing a port are one fact, recovery implies disconnected, and has a start time except between the two writes that enter it |
| `Recovery.RecoveryExit` | host/rp2350_relay_6ch/daemon.py:503-543 | recovery ends by adopting a probe begun at least 1500 ms after it, not on the unchanged USB instance unless that had been missing, with an uptime below the one before the reboot when both are known; or by a round that has read the fields of the reboot half written |
| `Recovery.FinishIff` | host/rp2350_relay_6ch/daemon.py:536-543 | at any point of any run the probe of a recovery is adopted exactly if its uptime is lower or one of the two is unknown; otherwise its client is closed, the attempt counted, and the recovery kept |
| `Recovery.RecoveryExitIff` | host/rp2350_relay_6ch/daemon.py:480-543 | once the fields are written the recovery is sure to end in the first way, whatever the interleaving, exactly if the running round has not read them half written |
| `Recovery.RecoveryCutShort` | host/rp2350_relay_6ch/daemon.py:456-487 | a concrete run in which it has, and adopts the board that has not reset yet |
| `Recovery.HeldClientIsCurrent` | host/rp2350_relay_6ch/daemon.py:602-611 | a command or heartbeat keeps the current, unclosed client from beginning to end, whatever the reconnect thread does |
| `Recovery.ClientsAccountedFor` | host/rp2350_relay_6ch/daemon.py:398-478 | every client opened is closed, current or being probed, exactly as long as no adoption has overtaken a shutdown |
| `Recovery.ShutdownOvertaken` | host/rp2350_relay_6ch/daemon.py:299-325 | a concrete run in which it has, and a client stays open |
| `Daemon.RelayDaemon.AdoptProbe` | host/rp2350_relay_6ch/daemon.py:414-428 | all connection and recovery fields after an adoption, and the replaced client closed |
| `Daemon.RelayDaemon.MarkDisconnected` | host/rp2350_relay_6ch/daemon.py:436-454 | all of them after a disconnection, and the client closed |
| `Daemon.RelayDaemon.EnterRebootRecovery` | host/rp2350_relay_6ch/daemon.py:456-478 | all of them after an accepted reboot, and the client closed |
| `Daemon.RelayDaemon.FailReconnect` | host/rp2350_relay_6ch/daemon.py:588-591 | the fatal stop |
| `Daemon.RelayDaemon.RecordRebootReconnectFailure` | host/rp2350_relay_6ch/daemon.py:593-596 | one more attempt, recovery kept |
| `Daemon.RelayDaemon.ProbeReady` | host/rp2350_relay_6ch/daemon.py:398-412 | a client that was opened but is not ready is closed |
| `Daemon.RelayDaemon.ReconnectOnce` | host/rp2350_relay_6ch/daemon.py:489-501 | an ordinary attempt is its run of reconnect steps, for every outcome of selection and probe |
| `Daemon.RelayDaemon.ReconnectAfterRebootOnce` | host/rp2350_relay_6ch/daemon.py:503-543 | so is an attempt during recovery |
| `Daemon.RelayDaemon.ReconnectRound` | host/rp2350_relay_6ch/daemon.py:480-487 | so is a whole round of the thread |
| `Daemon.PlainRoundIs` | host/rp2350_relay_6ch/daemon.py:480-501 | what an undisturbed round without recovery comes to, for every outcome, field by field |
| `Daemon.RecoveryRoundIs` | host/rp2350_relay_6ch/daemon.py:480-543 | what one during recovery comes to: nothing within 1500 ms or on the unchanged instance, else by selection, probe and the two uptimes |
| `Daemon.RelayDaemon.HeartbeatOnce` | host/rp2350_relay_6ch/daemon.py:602-611 | a heartbeat is its pair of steps |
| `Daemon.HeartbeatIs` | host/rp2350_relay_6ch/daemon.py:602-611 | what it comes to: the connection is left exactly if it fails |
| `Daemon.RelayDaemon.HandleRequest` | host/rp2350_relay_6ch/daemon.py:735-769 | a device command is its run of steps; it is answered as not connected without a connection, else as failed, refused or carried out exactly by the reply of the device; the status of the daemon is its fields |
| `Daemon.CommandIs` | host/rp2350_relay_6ch/daemon.py:735-769 | what a command comes to: a transport error or BOOTSEL leaves the connection, a reboot enters recovery, anything else changes nothing |

## Left out

- Zephyr kernel, GPIO, PWM, display, USB, hardware information and MCUmgr internals: only their answers appear;
  canceling and rescheduling a work item always succeed.
- Test hooks under `CONFIG_ZTEST`, logging, build metadata, name tables, the shell, `firmware/src/reboot.c` and
  `firmware/src/waveshare_ws2812_pio.c`.
- Of the management handlers only reboot, BOOTSEL and heartbeat are modelled, past request decoding and before
  response encoding; the relay commands appear as the functions of relay.c they call, and the handlers that only read
  state, with the counters, not at all.
- The reasons word of the health model is a set of reasons. Counters and clocks are unbounded.
- `HealthModel.Model.RecomputeLocked`: the locks and the lazy initialization of the C module are left out.
- `HealthModel.Model.SetRelayState`: the contracts of the control plane say which health calls are made in which order;
  that the health model keeps up with them is in the contracts of `HealthModel`.
- `RelayControl.Control.PublishIndicatorState`: of the indicator only the pulse mask and the pulse timings are written.
- `RelayControl.Control.RelaySet`: the methods of the control plane carry out their publication at once; its
  interleavings are those of the steps of `Firmware`, where a snapshot published by any other code is the step
  `Refreshing`.
- `RelayControl.Control.RelayInit`: a pin whose configuration is refused stays as it was.
- The handler of `comm_loss_reboot_expired` is a step of `Firmware` without a method of its own.
- `CborReader.ReadWholeMap`: the interpreter's recursion limit. Dictionaries are entry lists in insertion order; a text
  is the bytes it is written with.
- `Smp.Call`: port handling and time-outs are the sequence of lines that arrive before the first empty read.
- `Oled.Display.DrawHline`, `Oled.Display.DrawVline`, `Oled.Display.ClearVline`, `Oled.Display.DrawRect`: as in the
  code the caller keeps every byte written inside the frame; the preconditions say exactly that, and `RenderFrame`
  meets them.
- `Oled.Display.DrawPulseMark`, `Oled.Display.DrawPulseCountdown`: their columns are on the screen, as for every cell.
- `Oled.Display.RenderFrame`: writing the frame to the panel. The loop bodies of the original are split into methods.
- RGB colours, glyph bitmaps as data, the power-on display check, PNG writing.
- JSON, sockets, file permissions, signals, sysfs lookup and argument parsing of the daemon, and unexpected exceptions
  that would end a thread.
- `Server.Server.ReadClient`: a response to a client that has gone counts as given.
- `Recovery.ConnectedAgrees`: the first connection before the threads start is not modelled apart from the state that a
  missing device leaves; error texts are left out. Fields written under one hold of the state lock are written in one
  step, except that entering recovery is three: the connection, the flag, then start, status, instance and missing.
- `Daemon.RelayDaemon.HandleRequest`: the result of a device command and the texts of errors and of the status.
- `host/rp2350_relay_6ch/smp.py`, `transport.py`, `cli.py`, `relayctl.py`, `session.py`, `config.py`, `systemd.py` and
  `discovery.py`.
