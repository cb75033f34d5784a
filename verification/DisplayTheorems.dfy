/** When the documentation preview shows what the firmware shows. */
module DisplayTheorems {
  import opened Canvas
  import opened Countdown
  import opened Scene
  import Oled
  import Preview

  /** The same labels, masks and flags on both sides. */
  predicate SameState(input: Oled.Input, state: Preview.State) {
    && state.mode == Oled.ModeText(input.mode) && state.detail == Oled.DetailText(input.detail)
    && state.ready == input.ready && state.error == input.error
    && state.state == input.state && state.pulse == input.pulse
  }

  /** A bar is shown on both sides or on neither; if shown, the same eighths are left of the two durations. */
  predicate SameBar(duration: uint32, left: int, timed: bool, previewLeft: int) {
    && (duration > 0 && left > 0 <==> timed && previewLeft > 0)
    && (duration > 0 && left > 0 && previewLeft > 0 ==>
         forall k :: 1 <= k < MAX_RADIUS ==>
           (OverEighths(left % WRAP, duration, k) <==> OverEighths(previewLeft, PREVIEW_MS, k)))
  }

  const PREVIEW_MS: nat := 1000

  predicate SameBars(input: Oled.Input, state: Preview.State, pulseNow: seq<int>)
    requires Oled.Timed(input)
  {
    forall c :: 0 <= c < CELLS && c in input.pulse ==>
      SameBar(input.durations[c], input.ends[c] - input.now, state.timed, PREVIEW_MS - Preview.TimeOf(pulseNow, c))
  }

  lemma SameRadius(input: Oled.Input, state: Preview.State, pulseNow: seq<int>, c: nat)
    requires Oled.Timed(input) && SameState(input, state) && c < CELLS && c in input.pulse
    ensures Oled.CellOf(input, c).radius == Preview.CellOf(state, pulseNow, c).radius <==>
            SameBar(input.durations[c], input.ends[c] - input.now, state.timed,
                    PREVIEW_MS - Preview.TimeOf(pulseNow, c))
  {
    var duration, left := input.durations[c], input.ends[c] - input.now;
    var previewLeft := PREVIEW_MS - Preview.TimeOf(pulseNow, c);
    if duration > 0 && left > 0 {
      RadiusBounds(left % WRAP, duration);
    }
    if previewLeft > 0 {
      RadiusBounds(previewLeft, PREVIEW_MS);
    }
    if duration > 0 && left > 0 && previewLeft > 0 {
      SameRadiusIff(left % WRAP, duration, previewLeft, PREVIEW_MS);
    }
  }

  predicate NonePulsing(pulse: set<nat>) {
    forall c :: 0 <= c < CELLS ==> c !in pulse
  }

  /**
   * With unreversed cells, the packed frame shows the preview's picture exactly when the pulse marks are in the
   * visible half of their blinking, or no channel pulses, and the bars are equally long.
   */
  lemma RenderersAgreeIff(font: Font, input: Oled.Input, state: Preview.State, pulseNow: seq<int>)
    requires Oled.Timed(input) && SameState(input, state)
    ensures Picture(font, Oled.FirmwareScreen(input, false)) == Picture(font, Preview.PreviewScreen(state, pulseNow))
            <==> (input.now % 1000 < 500 || NonePulsing(input.pulse)) && SameBars(input, state, pulseNow)
  {
    Oled.BlinkIff(input.now);
    var a, b := Oled.FirmwareScreen(input, false), Preview.PreviewScreen(state, pulseNow);
    Oled.ScreenProper(input, false);
    Preview.ScreenProper(state, pulseNow);
    SamePictureIff(font, a, b);
    MarksAndBars(input, state, pulseNow);
    SameRadiiIff(input, state, pulseNow);
  }

  /** Every pulsing channel has a bar of the same length on both sides. */
  predicate SameRadii(input: Oled.Input, state: Preview.State, pulseNow: seq<int>)
    requires Oled.Timed(input)
  {
    forall c :: 0 <= c < CELLS && c in input.pulse ==>
      Oled.CellOf(input, c).radius == Preview.CellOf(state, pulseNow, c).radius
  }

  lemma SameRadiiIff(input: Oled.Input, state: Preview.State, pulseNow: seq<int>)
    requires Oled.Timed(input) && SameState(input, state)
    ensures SameRadii(input, state, pulseNow) <==> SameBars(input, state, pulseNow)
  {
    forall c | 0 <= c < CELLS && c in input.pulse
      ensures Oled.CellOf(input, c).radius == Preview.CellOf(state, pulseNow, c).radius <==>
              SameBar(input.durations[c], input.ends[c] - input.now, state.timed,
                      PREVIEW_MS - Preview.TimeOf(pulseNow, c))
    {
      SameRadius(input, state, pulseNow, c);
    }
  }

  lemma MarksAndBars(input: Oled.Input, state: Preview.State, pulseNow: seq<int>)
    requires Oled.Timed(input) && SameState(input, state)
    ensures SameMarksAndBars(Oled.FirmwareScreen(input, false), Preview.PreviewScreen(state, pulseNow))
            <==> (Oled.MarkVisible(input.now) || NonePulsing(input.pulse)) && SameRadii(input, state, pulseNow)
  {
    var a, b := Oled.FirmwareScreen(input, false).cells, Preview.PreviewScreen(state, pulseNow).cells;
    assert forall i :: 0 <= i < CELLS ==>
        a[i] == Oled.CellOf(input, i) && b[i] == Preview.CellOf(state, pulseNow, i);
    if SameMarksAndBars(Oled.FirmwareScreen(input, false), Preview.PreviewScreen(state, pulseNow)) {
      forall c | 0 <= c < CELLS && c in input.pulse
        ensures Oled.MarkVisible(input.now)
        ensures Oled.CellOf(input, c).radius == Preview.CellOf(state, pulseNow, c).radius
      {
        assert a[c].mark == b[c].mark && a[c].radius == b[c].radius;
      }
    }
  }

  /** A second-long pulse with the same time left on both sides has the same bar, at any clock reading. */
  lemma SameTimeLeft(input: Oled.Input, state: Preview.State, pulseNow: seq<int>)
    requires Oled.Timed(input) && SameState(input, state) && state.timed
    requires forall c :: 0 <= c < CELLS && c in input.pulse ==>
               && input.durations[c] == PREVIEW_MS && input.ends[c] - input.now < WRAP
               && PREVIEW_MS - Preview.TimeOf(pulseNow, c) == input.ends[c] - input.now
    ensures SameBars(input, state, pulseNow)
  {
    forall c | 0 <= c < CELLS && c in input.pulse
      ensures SameBar(input.durations[c], input.ends[c] - input.now, state.timed,
                      PREVIEW_MS - Preview.TimeOf(pulseNow, c))
    {
      RadiiAgreeIff(PREVIEW_MS, input.ends[c], input.now);
      SameRadius(input, state, pulseNow, c);
    }
  }

  /** The two programs, one after the other. */
  method RenderBoth(font: Font, input: Oled.Input, state: Preview.State, pulseNow: seq<int>)
    returns (display: Oled.Display, ok: bool, preview: Preview.Frame)
    requires Oled.Timed(input) && SameState(input, state)
    ensures display.Valid() && fresh(display) && fresh(preview)
    ensures ok <==> Preview.KnownScreen(font, Preview.PreviewScreen(state, pulseNow))
    ensures ok ==> (display.View() == preview.pixels <==>
                    (input.now % 1000 < 500 || NonePulsing(input.pulse)) && SameBars(input, state, pulseNow))
  {
    display := new Oled.Display(font, false);
    display.RenderFrame(input);
    ok, preview := Preview.RenderFrame(font, state, pulseNow);
    RenderersAgreeIff(font, input, state, pulseNow);
  }
}
