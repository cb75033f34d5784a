/**
 * The pulse timings the indicator keeps for its countdown bars (firmware/src/indicator.c): set from the time left
 * that the relay module reports, and read by every later render.
 */
module PulseTimes {
  import opened Common
  import opened Countdown
  import opened Masks

  const CHANNELS: nat := 6

  /** What the relay module reports of a channel's pulse. */
  datatype Timing = Timing(duration: uint32, remaining: uint32)

  /** What the indicator keeps of it: the moment the pulse ends is in 64 bits. */
  datatype Slot = Slot(duration: uint32, end: int)

  const EMPTY: Slot := Slot(0, 0)

  type Slots = s: seq<Slot> | |s| == CHANNELS witness [EMPTY, EMPTY, EMPTY, EMPTY, EMPTY, EMPTY]

  const NOTHING: Timing := Timing(0, 0)

  type Timings = t: seq<Timing> | |t| == CHANNELS witness [NOTHING, NOTHING, NOTHING, NOTHING, NOTHING, NOTHING]

  /** The slot of a channel for a report, or the empty one. */
  function SlotFor(active: set<nat>, timing: Option<Timings>, now: int, c: nat): Slot
    requires c < CHANNELS
  {
    if timing.None? || c !in active || timing.value[c].duration == 0 || timing.value[c].remaining == 0 then EMPTY
    else Slot(timing.value[c].duration, now + timing.value[c].remaining)
  }

  function Stored(active: set<nat>, timing: Option<Timings>, now: int): Slots {
    seq(CHANNELS, c requires 0 <= c < CHANNELS => SlotFor(active, timing, now, c))
  }

  function Zip(durations: seq<uint32>, ends: seq<int>): Slots
    requires |durations| == |ends| == CHANNELS
  {
    seq(CHANNELS, c requires 0 <= c < CHANNELS => Slot(durations[c], ends[c]))
  }

  class Indicator {
    var pulseMask: bv8
    const durations: array<uint32>
    const ends: array<int>

    /** indicator_init. */
    constructor ()
      ensures Valid() && fresh(durations) && fresh(ends) && View() == Stored({}, None, 0) && pulseMask == 0
    {
      pulseMask := 0;
      durations := new uint32[CHANNELS](_ => 0);
      ends := new int[CHANNELS](_ => 0);
      new;
      assert View() == Stored({}, None, 0);
    }

    ghost predicate Valid() {
      durations.Length == CHANNELS && ends.Length == CHANNELS
    }

    ghost function View(): Slots
      requires Valid()
      reads durations, ends
    {
      Zip(durations[..], ends[..])
    }

    method Forget()
      requires Valid()
      modifies durations, ends
      ensures forall i :: 0 <= i < CHANNELS ==> durations[i] == 0 && ends[i] == 0
    {
      for c := 0 to CHANNELS
        invariant forall i :: 0 <= i < c ==> durations[i] == 0 && ends[i] == 0
      {
        durations[c], ends[c] := 0, 0;
      }
    }

    /** indicator_set_relay_timed_state; only channels the last health snapshot shows as pulsing are taken over. */
    method SetRelayTimedState(now: int, mask: bv8, timing: Option<Timings>)
      requires Valid()
      modifies durations, ends
      ensures View() == Stored(Channels(mask) * Channels(pulseMask), timing, now)
    {
      var active := And(mask, pulseMask);
      Forget();
      if timing.Some? {
        TakeOver(now, active, timing.value);
      }
      assert View() == Stored(Channels(active), timing, now);
    }

    method TakeOver(now: int, active: bv8, timing: Timings)
      requires Valid() && forall i :: 0 <= i < CHANNELS ==> durations[i] == 0 && ends[i] == 0
      modifies durations, ends
      ensures forall i :: 0 <= i < CHANNELS ==>
                Slot(durations[i], ends[i]) == SlotFor(Channels(active), Some(timing), now, i)
    {
      for c := 0 to CHANNELS
        invariant forall i :: 0 <= i < c ==>
                    Slot(durations[i], ends[i]) == SlotFor(Channels(active), Some(timing), now, i)
        invariant forall i :: c <= i < CHANNELS ==> durations[i] == 0 && ends[i] == 0
      {
        Member(active, c);
        if !TestBit(active, c) || timing[c].duration == 0 || timing[c].remaining == 0 {
          continue;
        }
        durations[c] := timing[c].duration;
        ends[c] := now + timing[c].remaining;
      }
    }
  }

  // ----- What later renders find -----

  /** Whatever was reported at `at`, every later render has less than 2^32 ms left of every pulse. */
  lemma TimeLeftFits(active: set<nat>, timing: Option<Timings>, at: int, now: int, c: nat)
    requires at <= now && c < CHANNELS
    ensures var slot := Stored(active, timing, at)[c];
            slot.duration > 0 ==> slot.end - now < WRAP
  {
  }

  /** So every later render shows the bar of the exact time left, and from then on it never grows. */
  lemma BarsAreExact(active: set<nat>, timing: Option<Timings>, at: int, now: int, c: nat)
    requires at <= now && c < CHANNELS
    ensures var slot := Stored(active, timing, at)[c];
            && FirmwareRadius(slot.duration, slot.end, now) == PreviewRadius(slot.duration, slot.end, now)
            && NeverGrows(slot.duration, slot.end, now)
  {
    var slot := Stored(active, timing, at)[c];
    TimeLeftFits(active, timing, at, now, c);
    RadiiAgreeIff(slot.duration, slot.end, now);
    if slot.duration > 0 && now < slot.end {
      NeverGrowsIff(slot.duration, slot.end, now);
    }
  }
}
