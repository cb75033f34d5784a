/**
 * The documentation renderer of scripts/generate-oled-indicator-preview.py: a grid of booleans, drawn in place. Each
 * operation is proved to paint the same shape on its grid as the firmware's does on the packed frame.
 */
module Preview {
  import opened Canvas
  import opened Countdown
  import opened Scene

  datatype State = State(mode: string, detail: string, ready: bool, state: set<nat>, pulse: set<nat>, error: bool,
                         timed: bool)

  function TimeOf(pulseNow: seq<int>, channel: nat): int {
    if channel < |pulseNow| then pulseNow[channel] else 0
  }

  function CellOf(state: State, pulseNow: seq<int>, channel: nat): Cell
    requires channel < CELLS
  {
    var pulsing := channel in state.pulse;
    var time := if state.timed && pulsing then 1000 else 0;
    Cell(Digit(channel), channel in state.state || pulsing, pulsing,
         if pulsing then PreviewRadius(time, time, TimeOf(pulseNow, channel)) else 0)
  }

  function PreviewScreen(state: State, pulseNow: seq<int>): (screen: Screen)
    ensures |screen.cells| == CELLS
  {
    Screen(state.ready, state.state + state.pulse != {}, state.pulse != {}, state.error,
           seq(CELLS, i requires 0 <= i < CELLS => CellOf(state, pulseNow, i)), state.mode, state.detail)
  }

  lemma ScreenProper(state: State, pulseNow: seq<int>)
    ensures Proper(PreviewScreen(state, pulseNow))
  {
    forall i | 0 <= i < CELLS
      ensures PreviewScreen(state, pulseNow).cells[i].radius <= MAX_RADIUS
    {
      if TimeOf(pulseNow, i) < 1000 {
        RadiusBounds(1000 - TimeOf(pulseNow, i), 1000);
      }
    }
  }

  /**
   * What the preview shows. Its pulses last a second if they are timed, a channel beyond the given times is at its
   * start, and marks do not blink.
   */
  lemma PreviewScreenIs(state: State, pulseNow: seq<int>, i: nat)
    requires i < 6
    ensures var screen := PreviewScreen(state, pulseNow);
            var cell, left := screen.cells[i], 1000 - if i < |pulseNow| then pulseNow[i] else 0;
            && cell.digit == "123456"[i] && (cell.mark <==> i in state.pulse)
            && (cell.filled <==> i in state.state || i in state.pulse)
            && (cell.radius > 0 <==> i in state.pulse && state.timed && left > 0)
            && (cell.radius > 0 ==> Reaches(cell.radius, left, 1000))
            && screen.mode == state.mode && screen.detail == state.detail
            && screen.ready == state.ready && screen.error == state.error
            && (screen.active <==> exists c :: c in state.state || c in state.pulse)
            && (screen.pulsing <==> exists c :: c in state.pulse)
  {
    var left := 1000 - if i < |pulseNow| then pulseNow[i] else 0;
    if left > 0 {
      RadiusOverAll(left, 1000);
    }
    if state.state + state.pulse != {} {
      var c :| c in state.state + state.pulse;
      assert c in state.state || c in state.pulse;
    }
  }

  // ----- Known characters -----

  /** Every character that is drawn has a glyph. */
  predicate Known(font: Font, s: string, x: int) {
    forall i :: 0 <= i < |s| && s[i] != ' ' && x + 6 * i <= 123 ==> s[i] in font
  }

  predicate KnownTop(font: Font, screen: Screen) {
    && Known(font, "USB", 3)
    && (screen.ready ==> Known(font, "RDY", 29))
    && (screen.active ==> Known(font, "ACT", 55))
    && (screen.pulsing ==> Known(font, "PLS", 81))
    && (screen.error ==> Known(font, "ERR", 111))
  }

  predicate KnownStatus(font: Font, mode: string, detail: string) {
    Known(font, mode, 3) && (detail != "" ==> Known(font, detail, DetailX(detail)))
  }

  predicate KnownScreen(font: Font, screen: Screen)
    requires |screen.cells| == CELLS
  {
    && KnownTop(font, screen)
    && (forall i :: 0 <= i < CELLS ==> screen.cells[i].digit in font)
    && KnownStatus(font, screen.mode, screen.detail)
  }

  // ----- Drawing -----

  class Frame {
    const font: Font
    var pixels: Grid

    constructor (font: Font)
      ensures this.font == font && pixels == Blank()
    {
      this.font := font;
      pixels := Blank();
    }

    method SetPixel(x: int, y: int)
      modifies `pixels
      ensures pixels == Paint(font, old(pixels), Dot(x, y), true)
    {
      if 0 <= x < WIDTH && 0 <= y < HEIGHT {
        pixels := pixels[y := pixels[y][x := true]];
      }
      SameGrid(pixels, Paint(font, old(pixels), Dot(x, y), true));
    }

    method ClearPixel(x: int, y: int)
      modifies `pixels
      ensures pixels == Paint(font, old(pixels), Dot(x, y), false)
    {
      if 0 <= x < WIDTH && 0 <= y < HEIGHT {
        pixels := pixels[y := pixels[y][x := false]];
      }
      SameGrid(pixels, Paint(font, old(pixels), Dot(x, y), false));
    }

    method DrawHline(x: int, y: int, width: nat)
      modifies `pixels
      ensures pixels == Paint(font, old(pixels), HLine(x, y, width), true)
    {
      PaintNothing(font, pixels, HLine(x, y, 0), true);
      for col := 0 to width
        invariant pixels == Paint(font, old(pixels), HLine(x, y, col), true)
      {
        SetPixel(x + col, y);
        NextDotRight(font, old(pixels), x, y, col, true);
      }
    }

    method DrawVline(x: int, y: int, height: nat)
      modifies `pixels
      ensures pixels == Paint(font, old(pixels), VLine(x, y, height), true)
    {
      PaintNothing(font, pixels, VLine(x, y, 0), true);
      for row := 0 to height
        invariant pixels == Paint(font, old(pixels), VLine(x, y, row), true)
      {
        SetPixel(x, y + row);
        NextDotDown(font, old(pixels), x, y, row, true);
      }
    }

    method ClearVline(x: int, y: int, height: nat)
      modifies `pixels
      ensures pixels == Paint(font, old(pixels), VLine(x, y, height), false)
    {
      PaintNothing(font, pixels, VLine(x, y, 0), false);
      for row := 0 to height
        invariant pixels == Paint(font, old(pixels), VLine(x, y, row), false)
      {
        ClearPixel(x, y + row);
        NextDotDown(font, old(pixels), x, y, row, false);
      }
    }

    method DrawRect(x: int, y: int, width: nat, height: nat, filled: bool)
      modifies `pixels
      ensures pixels == Paint(font, old(pixels), Rect(x, y, width, height, filled), true)
    {
      if filled {
        PaintNothing(font, pixels, Block(x, y, width, 0), true);
        for row := 0 to height
          invariant pixels == Paint(font, old(pixels), Block(x, y, width, row), true)
        {
          DrawHline(x, y + row, width);
          NextRow(font, old(pixels), x, y, width, row, true);
        }
        return;
      }
      DrawHline(x, y, width);
      DrawHline(x, y + height - 1, width);
      DrawVline(x, y, height);
      DrawVline(x + width - 1, y, height);
      FourSides(font, old(pixels), x, y, width, height);
    }

    method PlotPixel(x: int, y: int, clear: bool)
      modifies `pixels
      ensures pixels == Paint(font, old(pixels), Dot(x, y), !clear)
    {
      if clear {
        ClearPixel(x, y);
      } else {
        SetPixel(x, y);
      }
    }

    /** One row of a glyph whose rows above are already on `base`. */
    method DrawGlyphRow(ghost base: Grid, x: int, y: int, c: char, row: nat, clear: bool)
      requires c in font && row < 7 && pixels == Paint(font, base, Letter(c, x, y, 5 * row), !clear)
      modifies `pixels
      ensures pixels == Paint(font, base, Letter(c, x, y, 5 * (row + 1)), !clear)
    {
      var bits := font[c][row];
      for col := 0 to 5
        invariant pixels == Paint(font, base, Letter(c, x, y, 5 * row + col), !clear)
      {
        NextLetterDot(font, base, c, x, y, row, col, !clear);
        if Bit(bits, 4 - col) {
          PlotPixel(x + col, y + row, clear);
        }
      }
    }

    method DrawChar(x: int, y: int, c: char, clear: bool) returns (ok: bool)
      modifies `pixels
      ensures ok <==> c in font
      ensures ok ==> pixels == Paint(font, old(pixels), Letter(c, x, y, 35), !clear)
    {
      if c !in font {
        return false;
      }
      PaintNothing(font, pixels, Letter(c, x, y, 0), !clear);
      for row := 0 to 7
        invariant pixels == Paint(font, old(pixels), Letter(c, x, y, 5 * row), !clear)
      {
        DrawGlyphRow(old(pixels), x, y, c, row, clear);
      }
      return true;
    }

    method DrawText(x: int, y: int, text: string) returns (ok: bool)
      modifies `pixels
      ensures ok <==> Known(font, text, x)
      ensures ok ==> pixels == Paint(font, old(pixels), Line(text, x, y), true)
    {
      PaintNothing(font, pixels, Text(text, x, y, 0), true);
      for i := 0 to |text|
        invariant Known(font, text[..i], x)
        invariant pixels == Paint(font, old(pixels), Text(text, x, y, i), true)
      {
        var at := x + i * 6;
        if at > WIDTH - 5 {
          TextEnds(font, old(pixels), text, x, y, i);
          forall j | 0 <= j < |text| && text[j] != ' ' && x + 6 * j <= 123
            ensures text[j] in font
          {
            assert text[j] == text[..i][j];
          }
          return true;
        }
        NextCharacter(font, old(pixels), text, x, y, i);
        if text[i] != ' ' {
          var drawn := DrawChar(at, y, text[i], false);
          if !drawn {
            return false;
          }
        }
      }
      TextEnds(font, old(pixels), text, x, y, |text|);
      assert text[..|text|] == text;
      return true;
    }

    method DrawMarkBlock(x: int, y: int, filled: bool)
      modifies `pixels
      ensures pixels == Paint(font, old(pixels), Block(x, y, 2, 2), !filled)
    {
      PaintUnion(font, pixels, VLine(x, y, 2), VLine(x + 1, y, 2), Block(x, y, 2, 2), !filled);
      if filled {
        ClearVline(x, y, 2);
        ClearVline(x + 1, y, 2);
      } else {
        DrawVline(x, y, 2);
        DrawVline(x + 1, y, 2);
      }
    }

    method DrawPulseMark(x: int, y: int, filled: bool)
      modifies `pixels
      ensures pixels == Paint(font, old(pixels), Mark(x, y, 2), !filled)
    {
      var offsets := [0, 3];
      PaintNothing(font, pixels, Mark(x, y, 0), !filled);
      for i := 0 to 2
        invariant pixels == Paint(font, old(pixels), Mark(x, y, i), !filled)
      {
        DrawMarkBlock(x + offsets[i], y, filled);
        NextMarkBlock(font, old(pixels), x, y, i, !filled);
      }
    }

    method DrawPulseCountdown(cellX: int, duration: nat, end: int, now: int)
      modifies `pixels
      ensures pixels == var r := PreviewRadius(duration, end, now);
                        PaintIf(font, old(pixels), Bar(cellX, r), true, r > 0)
    {
      if duration == 0 || end <= now {
        return;
      }
      RadiusBounds(end - now, duration);
      var remaining := if end - now < duration then end - now else duration;
      var radius := (remaining * MAX_RADIUS + duration - 1) / duration;
      radius := if radius < 1 then 1 else radius;
      assert radius == PreviewRadius(duration, end, now);
      var centre := cellX + 17 / 2;
      var left := centre - radius + 1;
      var width := radius * 2 - 1;
      PaintNothing(font, pixels, Block(left, 46, width, 0), true);
      for row := 0 to 2
        invariant pixels == Paint(font, old(pixels), Block(left, 46, width, row), true)
      {
        DrawHline(left, 46 + row, width);
        NextRow(font, old(pixels), left, 46, width, row, true);
      }
    }

    method DrawTop(screen: Screen) returns (ok: bool)
      modifies `pixels
      ensures ok <==> KnownTop(font, screen)
      ensures ok ==> pixels == Rules(font, Annunciators(font, old(pixels), screen.ready, screen.active, screen.pulsing,
                                                        screen.error))
    {
      ok := DrawText(3, 3, "USB");
      if ok && screen.ready {
        ok := DrawText(3 + 26, 3, "RDY");
      }
      if ok && screen.active {
        ok := DrawText(3 + 52, 3, "ACT");
      }
      if ok && screen.pulsing {
        ok := DrawText(3 + 78, 3, "PLS");
      }
      if ok && screen.error {
        ok := DrawText(3 + 108, 3, "ERR");
      }
      if ok {
        DrawHline(3, 13, 122);
        DrawHline(3, 50, 122);
      }
    }

    method DrawCell(i: nat, cell: Cell, duration: nat, end: int, now: int) returns (ok: bool)
      requires i < CELLS
      requires cell.radius == if cell.mark then PreviewRadius(duration, end, now) else 0
      modifies `pixels
      ensures ok <==> cell.digit in font
      ensures ok ==> pixels == PaintCell(font, old(pixels), CellX(i), cell)
    {
      var cellX := 3 + i * 21;
      DrawRect(cellX, 18, 17, 27, cell.filled);
      ok := DrawChar(cellX + (17 - 5) / 2, 18 + (27 - 7) / 2, cell.digit, cell.filled);
      if ok && cell.mark {
        DrawPulseMark(cellX + 11, 18 + 4, cell.filled);
        DrawPulseCountdown(cellX, duration, end, now);
      }
    }

    method DrawCells(state: State, pulseNow: seq<int>) returns (ok: bool)
      modifies `pixels
      ensures ok <==> forall i :: 0 <= i < CELLS ==> PreviewScreen(state, pulseNow).cells[i].digit in font
      ensures var cells := PreviewScreen(state, pulseNow).cells;
              ok ==> pixels == PaintCells(font, old(pixels), cells, |cells|)
    {
      ghost var cells := PreviewScreen(state, pulseNow).cells;
      for channel := 0 to CELLS
        invariant forall i :: 0 <= i < channel ==> cells[i].digit in font
        invariant pixels == PaintCells(font, old(pixels), cells, channel)
      {
        var time := if state.timed && channel in state.pulse then 1000 else 0;
        var now := TimeOf(pulseNow, channel);
        assert cells[channel] == CellOf(state, pulseNow, channel);
        ok := DrawCell(channel, CellOf(state, pulseNow, channel), time, time, now);
        if !ok {
          return;
        }
      }
      return true;
    }

    method DrawStatus(mode: string, detail: string) returns (ok: bool)
      modifies `pixels
      ensures ok <==> KnownStatus(font, mode, detail)
      ensures ok ==> pixels == Status(font, old(pixels), mode, detail)
    {
      ok := DrawText(3, 54, mode);
      if ok && detail != "" {
        ok := DrawText(DetailX(detail), 54, detail);
      }
    }
  }

  /** A new frame, drawn; false when a character has no glyph. */
  method RenderFrame(font: Font, state: State, pulseNow: seq<int>) returns (ok: bool, frame: Frame)
    ensures frame.font == font && fresh(frame)
    ensures ok <==> KnownScreen(font, PreviewScreen(state, pulseNow))
    ensures ok ==> frame.pixels == Picture(font, PreviewScreen(state, pulseNow))
  {
    frame := new Frame(font);
    ok := frame.DrawTop(PreviewScreen(state, pulseNow));
    if !ok {
      return;
    }
    ghost var top := frame.pixels;
    ok := frame.DrawCells(state, pulseNow);
    if !ok {
      return;
    }
    BodyDone(font, PreviewScreen(state, pulseNow), top, frame.pixels);
    ghost var body := frame.pixels;
    ok := frame.DrawStatus(state.mode, state.detail);
    if ok {
      Finished(font, PreviewScreen(state, pulseNow), body, frame.pixels, state.mode, state.detail);
    }
  }
}
