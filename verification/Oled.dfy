/**
 * The display renderer of firmware/src/indicator.c: a frame of 1024 bytes, eight rows to a byte, drawn in place.
 * Each operation is proved to paint a shape on the unpacked picture.
 */
module Oled {
  import opened Bytes
  import opened Canvas
  import opened Countdown
  import opened Scene

  const FRAME_SIZE: nat := 1024

  // ----- Bits of a byte -----

  function SetBit(b: nat, k: nat, width: nat): (r: nat)
    requires k < width && b < Power2(width)
    ensures r < Power2(width)
  {
    if k == 0 then b - b % 2 + 1 else 2 * SetBit(b / 2, k - 1, width - 1) + b % 2
  }

  function ClearBit(b: nat, k: nat): (r: nat)
    ensures r <= b
  {
    if k == 0 then b - b % 2 else 2 * ClearBit(b / 2, k - 1) + b % 2
  }

  lemma {:induction false} SetBitBits(b: nat, k: nat, width: nat, j: nat)
    requires k < width && b < Power2(width)
    ensures Bit(SetBit(b, k, width), j) <==> j == k || Bit(b, j)
    decreases k
  {
    if k > 0 && j > 0 {
      SetBitBits(b / 2, k - 1, width - 1, j - 1);
      assert SetBit(b, k, width) / 2 == SetBit(b / 2, k - 1, width - 1);
    } else if j > 0 {
      assert SetBit(b, k, width) / 2 == b / 2;
    }
  }

  lemma {:induction false} ClearBitBits(b: nat, k: nat, j: nat)
    ensures Bit(ClearBit(b, k), j) <==> j != k && Bit(b, j)
    decreases k
  {
    if k > 0 && j > 0 {
      ClearBitBits(b / 2, k - 1, j - 1);
      assert ClearBit(b, k) / 2 == ClearBit(b / 2, k - 1);
    } else if j > 0 {
      assert ClearBit(b, k) / 2 == b / 2;
    }
  }

  function BitSet(b: byte, k: nat): byte
    requires k < 8
  {
    assert Power2(8) == 256;
    SetBit(b, k, 8)
  }

  function BitCleared(b: byte, k: nat): byte {
    ClearBit(b, k)
  }

  // ----- The packed frame as a picture -----

  function Place(u: nat, v: nat): (i: nat)
    requires u < WIDTH && v < HEIGHT
    ensures i < FRAME_SIZE
  {
    v / 8 * WIDTH + u
  }

  function Unpack(b: seq<byte>): Grid
    requires |b| == FRAME_SIZE
  {
    seq(HEIGHT, v requires 0 <= v < HEIGHT =>
      seq(WIDTH, u requires 0 <= u < WIDTH => Bit(b[Place(u, v)], v % 8)))
  }

  lemma PlacesApart(u: nat, v: nat, u': nat, v': nat)
    requires u < WIDTH && v < HEIGHT && u' < WIDTH && v' < HEIGHT
    requires Place(u, v) == Place(u', v') && v % 8 == v' % 8
    ensures u == u' && v == v'
  {
  }

  /** Changing one bit of one byte changes one pixel, and every pixel has such a bit. */
  lemma DotPacked(font: Font, b: seq<byte>, u: nat, v: nat, on: bool)
    requires |b| == FRAME_SIZE && u < WIDTH && v < HEIGHT
    ensures Unpack(b[Place(u, v) := if on then BitSet(b[Place(u, v)], v % 8) else BitCleared(b[Place(u, v)], v % 8)])
            == Paint(font, Unpack(b), Dot(u, v), on)
  {
    var i, k := Place(u, v), v % 8;
    var changed := b[i := if on then BitSet(b[i], k) else BitCleared(b[i], k)];
    forall u', v' | 0 <= u' < WIDTH && 0 <= v' < HEIGHT
      ensures Unpack(changed)[v'][u'] == Paint(font, Unpack(b), Dot(u, v), on)[v'][u']
    {
      assert Power2(8) == 256;
      SetBitBits(b[i], k, 8, v' % 8);
      ClearBitBits(b[i], k, v' % 8);
      if Place(u', v') == i && v' % 8 == k {
        PlacesApart(u, v, u', v');
      }
    }
    SameGrid(Unpack(changed), Paint(font, Unpack(b), Dot(u, v), on));
  }

  // ----- What is rendered -----

  datatype Mode = Off | Boot | Ready | Active | Attention | Fault | Reboot

  function ModeText(mode: Mode): string {
    match mode
    case Off => ""
    case Boot => "BOOT"
    case Ready => "READY"
    case Active => "ACTIVE"
    case Attention => "ATTN"
    case Fault => "FAULT"
    case Reboot => "REBOOT"
  }

  datatype Detail = NoDetail | Fine | Pulse(n: nat) | Pulses | BadArgument | Busy | IoError | Owner | Hold

  /** Detail pulses carry a channel number from 1 to 6; any other value has no text. */
  function DetailText(detail: Detail): (s: string)
    ensures |s| <= 6
  {
    match detail
    case NoDetail => ""
    case Fine => "OK"
    case Pulse(n) => if 1 <= n <= CELLS then ['P', Digit(n - 1)] else ""
    case Pulses => "P*"
    case BadArgument => "E:ARG"
    case Busy => "E:BUSY"
    case IoError => "E:IO"
    case Owner => "OWNER"
    case Hold => "HOLD"
  }

  /** Masks as sets of bit numbers, pulse timings by channel. */
  datatype Input = Input(mode: Mode, detail: Detail, state: set<nat>, pulse: set<nat>, durations: seq<uint32>,
                         ends: seq<int>, ready: bool, error: bool, now: nat)

  predicate Timed(input: Input) {
    |input.durations| == CELLS && |input.ends| == CELLS
  }

  predicate MarkVisible(now: nat) {
    now / 500 % 2 == 0
  }

  function ChannelForCell(cell: nat, reversed: bool): (channel: nat)
    requires cell < CELLS
    ensures channel < CELLS
  {
    if reversed then CELLS - 1 - cell else cell
  }

  function CellOf(input: Input, channel: nat): Cell
    requires Timed(input) && channel < CELLS
  {
    var pulsing := channel in input.pulse;
    Cell(Digit(channel), channel in input.state || pulsing, pulsing && MarkVisible(input.now),
         if pulsing then FirmwareRadius(input.durations[channel], input.ends[channel], input.now) else 0)
  }

  function FirmwareScreen(input: Input, reversed: bool): (screen: Screen)
    requires Timed(input)
    ensures |screen.cells| == CELLS
  {
    Screen(input.ready, input.state + input.pulse != {}, input.pulse != {}, input.error,
           seq(CELLS, i requires 0 <= i < CELLS => CellOf(input, ChannelForCell(i, reversed))),
           ModeText(input.mode), DetailText(input.detail))
  }

  lemma ScreenProper(input: Input, reversed: bool)
    requires Timed(input)
    ensures Proper(FirmwareScreen(input, reversed))
  {
    forall i | 0 <= i < CELLS
      ensures FirmwareScreen(input, reversed).cells[i].radius <= MAX_RADIUS
    {
      var c := ChannelForCell(i, reversed);
      BarInsideCell(input.durations[c], input.ends[c], input.now, 0);
    }
  }

  /**
   * What the firmware shows. Cell i is channel i, or 5 - i on a reversed board, with the label of its number from 1.
   * It is filled if the relay is on or pulsing; a pulse shows its mark in every other half second, and a bar that
   * reaches more than k columns exactly while more than k eighths of the pulse are left.
   */
  lemma FirmwareScreenIs(input: Input, reversed: bool, i: nat)
    requires Timed(input) && i < 6
    ensures var c, cell := if reversed then 5 - i else i, FirmwareScreen(input, reversed).cells[i];
            && cell.digit == "123456"[c]
            && (cell.filled <==> c in input.state || c in input.pulse)
            && (cell.mark <==> c in input.pulse && input.now % 1000 < 500)
            && (cell.radius > 0 <==> c in input.pulse && input.durations[c] > 0 && input.now < input.ends[c])
            && (cell.radius > 0 && input.ends[c] - input.now < 0x1_0000_0000 ==>
                 Reaches(cell.radius, input.ends[c] - input.now, input.durations[c]))
  {
    var c := if reversed then 5 - i else i;
    assert FirmwareScreen(input, reversed).cells[i] == CellOf(input, c);
    CellIs(input, c);
  }

  lemma DigitIs(c: nat)
    requires c < 6
    ensures Digit(c) == "123456"[c]
  {
  }

  lemma CellIs(input: Input, c: nat)
    requires Timed(input) && c < 6
    ensures var cell := CellOf(input, c);
            && cell.digit == "123456"[c]
            && (cell.filled <==> c in input.state || c in input.pulse)
            && (cell.mark <==> c in input.pulse && input.now % 1000 < 500)
            && (cell.radius > 0 <==> c in input.pulse && input.durations[c] > 0 && input.now < input.ends[c])
            && (cell.radius > 0 && input.ends[c] - input.now < 0x1_0000_0000 ==>
                 Reaches(cell.radius, input.ends[c] - input.now, input.durations[c]))
  {
    BlinkIff(input.now);
    DigitIs(c);
    BarIs(input.durations[c], input.ends[c], input.now);
  }

  lemma BarIs(duration: uint32, end: int, now: nat)
    ensures var r := FirmwareRadius(duration, end, now);
            && (r > 0 <==> duration > 0 && now < end)
            && (r > 0 && end - now < 0x1_0000_0000 ==> Reaches(r, end - now, duration))
  {
    BarInsideCell(duration, end, now, 0);
    if duration > 0 && 0 < end - now < WRAP {
      RadiusOverAll(end - now, duration);
    }
  }

  lemma BlinkIff(now: nat)
    ensures MarkVisible(now) <==> now % 1000 < 500
  {
    assert now == 1000 * (now / 1000) + now % 1000;
    assert now / 500 == 2 * (now / 1000) + now % 1000 / 500;
  }

  /** The words of the screen: three of its lamps, the mode and the detail. */
  lemma FirmwareWordsAre(input: Input, reversed: bool)
    requires Timed(input)
    ensures var screen := FirmwareScreen(input, reversed);
            && (screen.ready <==> input.ready) && (screen.error <==> input.error)
            && (screen.active <==> exists c :: c in input.state || c in input.pulse)
            && (screen.pulsing <==> exists c :: c in input.pulse)
            && screen.mode == (match input.mode
                               case Off => "" case Boot => "BOOT" case Ready => "READY" case Active => "ACTIVE"
                               case Attention => "ATTN" case Fault => "FAULT" case Reboot => "REBOOT")
            && screen.detail == (match input.detail
                                 case NoDetail => "" case Fine => "OK" case Pulses => "P*" case BadArgument => "E:ARG"
                                 case Busy => "E:BUSY" case IoError => "E:IO" case Owner => "OWNER" case Hold => "HOLD"
                                 case Pulse(n) =>
                                   if n == 1 then "P1" else if n == 2 then "P2" else if n == 3 then "P3"
                                   else if n == 4 then "P4" else if n == 5 then "P5" else if n == 6 then "P6" else "")
  {
    if input.state + input.pulse != {} {
      var c :| c in input.state + input.pulse;
      assert c in input.state || c in input.pulse;
    }
  }

  lemma AddWrapped(a: nat, b: nat)
    ensures (a % 256 + b) % 256 == (a + b) % 256
  {
  }

  /** The eight-bit width of a text. */
  method DisplayTextWidth(text: string) returns (width: byte)
    requires |text| < 256
    ensures width == TextWidth(text) % 256
  {
    width := 0;
    for i := 0 to |text|
      invariant width == (if i == 0 then 0 else 6 * i - 1) % 256
    {
      if i > 0 {
        AddWrapped(6 * i - 1, 1);
        width := (width + 1) % 256;
      }
      AddWrapped(6 * i, 5);
      width := (width + 5) % 256;
    }
  }

  /** Where the detail starts: right-aligned if it fits between the margins. */
  method DetailColumn(detail: string) returns (x: byte)
    requires |detail| <= 6
    ensures x == DetailX(detail)
  {
    var width := DisplayTextWidth(detail);
    assert TextWidth(detail) <= 35;
    x := if width <= 122 then 124 - width + 1 else 3;
  }

  // ----- Drawing -----

  /** No byte beyond the frame is written by a horizontal line. */
  predicate RowInside(x: nat, y: nat, width: nat) {
    width == 0 || x >= WIDTH || y < HEIGHT
  }

  /** Nor by a vertical one, whose column is not checked: one off the screen is eight rows further down. */
  predicate ColumnInside(x: nat, y: nat, height: nat) {
    x < WIDTH || height == 0 || y >= HEIGHT || y + height <= HEIGHT - 8
  }

  function Column(x: nat, y: nat, height: nat): Shape {
    if x < WIDTH then VLine(x, y, height) else VLine(x - WIDTH, y + 8, height)
  }

  /** The pixel that a dot of a column goes to. */
  function ColumnDot(x: nat, y: nat): Shape {
    if x < WIDTH then Dot(x, y) else Dot(x - WIDTH, y + 8)
  }

  lemma ColumnDotPacked(font: Font, b: seq<byte>, x: nat, y: nat, on: bool)
    requires |b| == FRAME_SIZE && x < 256 && y < HEIGHT && ColumnInside(x, y, 1)
    ensures var i, k := y / 8 * WIDTH + x, y % 8;
            && i < FRAME_SIZE
            && Unpack(b[i := if on then BitSet(b[i], k) else BitCleared(b[i], k)])
               == Paint(font, Unpack(b), ColumnDot(x, y), on)
  {
    if x < WIDTH {
      DotPacked(font, b, x, y, on);
    } else {
      assert Place(x - WIDTH, y + 8) == y / 8 * WIDTH + x && (y + 8) % 8 == y % 8;
      DotPacked(font, b, x - WIDTH, y + 8, on);
    }
  }

  lemma NextColumnDot(font: Font, g: Grid, x: nat, y: nat, n: nat, on: bool)
    ensures Paint(font, Paint(font, g, Column(x, y, n), on), ColumnDot(x, y + n), on) ==
            Paint(font, g, Column(x, y, n + 1), on)
  {
    if x < WIDTH {
      NextDotDown(font, g, x, y, n, on);
    } else {
      NextDotDown(font, g, x - WIDTH, y + 8, n, on);
    }
  }

  lemma ColumnClipped(font: Font, g: Grid, x: nat, y: nat, n: nat, height: nat, on: bool)
    requires n <= height && (n < height ==> y + n >= HEIGHT)
    ensures Paint(font, g, Column(x, y, n), on) == Paint(font, g, Column(x, y, height), on)
  {
    if n < height {
      if x < WIDTH {
        ClippedBelow(font, g, x, y, n, height, on);
      } else {
        ClippedBelow(font, g, x - WIDTH, y + 8, n, height, on);
      }
    }
  }

  /** The outline of a rectangle in eight-bit coordinates, side by side. */
  function Sides(font: Font, g: Grid, x: nat, y: nat, width: nat, height: nat): Grid {
    var g1 := Paint(font, g, HLine(x, y, width), true);
    var g2 := Paint(font, g1, HLine(x, (y + height - 1) % 256, width), true);
    var g3 := Paint(font, g2, Column(x, y, height), true);
    Paint(font, g3, Column((x + width - 1) % 256, y, height), true)
  }

  class Display {
    const font: Font
    const reversed: bool
    const frame: array<byte>

    constructor (font: Font, reversed: bool)
      ensures this.font == font && this.reversed == reversed && Valid() && fresh(frame)
    {
      this.font := font;
      this.reversed := reversed;
      frame := new byte[FRAME_SIZE];
    }

    predicate Valid() {
      frame.Length == FRAME_SIZE
    }

    ghost function View(): Grid
      requires Valid()
      reads frame
    {
      Unpack(frame[..])
    }

    method DrawHline(x: byte, y: byte, width: byte)
      requires Valid() && RowInside(x, y, width)
      modifies frame
      ensures View() == Paint(font, old(View()), HLine(x, y, width), true)
    {
      var col := 0;
      PaintNothing(font, View(), HLine(x, y, 0), true);
      while col < width && x + col < WIDTH
        invariant col <= width
        invariant View() == Paint(font, old(View()), HLine(x, y, col), true)
      {
        DotPacked(font, frame[..], x + col, y, true);
        frame[y / 8 * WIDTH + x + col] := BitSet(frame[y / 8 * WIDTH + x + col], y % 8);
        NextDotRight(font, old(View()), x, y, col, true);
        col := col + 1;
      }
      if col < width {
        ClippedRight(font, old(View()), x, y, col, width, true);
      }
    }

    method DrawVline(x: byte, y: byte, height: byte)
      requires Valid() && ColumnInside(x, y, height)
      modifies frame
      ensures View() == Paint(font, old(View()), Column(x, y, height), true)
    {
      var row := 0;
      PaintNothing(font, View(), Column(x, y, 0), true);
      while row < height && y + row < HEIGHT
        invariant row <= height
        invariant View() == Paint(font, old(View()), Column(x, y, row), true)
      {
        ColumnDotPacked(font, frame[..], x, y + row, true);
        frame[(y + row) / 8 * WIDTH + x] := BitSet(frame[(y + row) / 8 * WIDTH + x], (y + row) % 8);
        NextColumnDot(font, old(View()), x, y, row, true);
        row := row + 1;
      }
      ColumnClipped(font, old(View()), x, y, row, height, true);
    }

    method ClearVline(x: byte, y: byte, height: byte)
      requires Valid() && ColumnInside(x, y, height)
      modifies frame
      ensures View() == Paint(font, old(View()), Column(x, y, height), false)
    {
      var row := 0;
      PaintNothing(font, View(), Column(x, y, 0), false);
      while row < height && y + row < HEIGHT
        invariant row <= height
        invariant View() == Paint(font, old(View()), Column(x, y, row), false)
      {
        ColumnDotPacked(font, frame[..], x, y + row, false);
        frame[(y + row) / 8 * WIDTH + x] := BitCleared(frame[(y + row) / 8 * WIDTH + x], (y + row) % 8);
        NextColumnDot(font, old(View()), x, y, row, false);
        row := row + 1;
      }
      ColumnClipped(font, old(View()), x, y, row, height, false);
    }

    method DrawRect(x: byte, y: byte, width: byte, height: byte, filled: bool)
      requires Valid()
      requires if filled then height == 0 || width == 0 || x >= WIDTH || y + height <= HEIGHT
               else && RowInside(x, y, width) && RowInside(x, (y + height - 1) % 256, width)
                    && ColumnInside(x, y, height) && ColumnInside((x + width - 1) % 256, y, height)
      modifies frame
      ensures View() == if filled then Paint(font, old(View()), Block(x, y, width, height), true)
                        else Sides(font, old(View()), x, y, width, height)
    {
      if filled {
        DrawBlock(x, y, width, height);
        return;
      }
      DrawHline(x, y, width);
      DrawHline(x, (y + height - 1) % 256, width);
      DrawVline(x, y, height);
      DrawVline((x + width - 1) % 256, y, height);
    }

    method DrawBlock(x: byte, y: byte, width: byte, height: byte)
      requires Valid() && (height == 0 || width == 0 || x >= WIDTH || y + height <= HEIGHT)
      modifies frame
      ensures View() == Paint(font, old(View()), Block(x, y, width, height), true)
    {
      PaintNothing(font, View(), Block(x, y, width, 0), true);
      for row := 0 to height
        invariant View() == Paint(font, old(View()), Block(x, y, width, row), true)
      {
        if width == 0 || x >= WIDTH {
          PaintNothing(font, View(), HLine(x, (y + row) % 256, width), true);
          PaintNothing(font, View(), HLine(x, y + row, width), true);
        }
        DrawHline(x, (y + row) % 256, width);
        NextRow(font, old(View()), x, y, width, row, true);
      }
    }

    /** On the screen the sides make the outline. */
    lemma SidesOnScreen(g: Grid, x: byte, y: byte, width: byte, height: byte)
      requires x < WIDTH && 1 <= x + width <= WIDTH && 1 <= y + height <= 256
      ensures Sides(font, g, x, y, width, height) == Paint(font, g, Outline(x, y, width, height), true)
    {
      FourSides(font, g, x, y, width, height);
    }

    method DrawMarkBlock(x: byte, y: byte, filled: bool)
      requires Valid() && x + 1 < WIDTH
      modifies frame
      ensures View() == Paint(font, old(View()), Block(x, y, 2, 2), !filled)
    {
      PaintUnion(font, View(), VLine(x, y, 2), VLine(x + 1, y, 2), Block(x, y, 2, 2), !filled);
      if filled {
        ClearVline(x, y, 2);
        ClearVline(x + 1, y, 2);
      } else {
        DrawVline(x, y, 2);
        DrawVline(x + 1, y, 2);
      }
    }

    method DrawPulseMark(x: byte, y: byte, filled: bool)
      requires Valid() && x + 4 < WIDTH
      modifies frame
      ensures View() == Paint(font, old(View()), Mark(x, y, 2), !filled)
    {
      var offsets := [0, 3];
      PaintNothing(font, View(), Mark(x, y, 0), !filled);
      for i := 0 to 2
        invariant View() == Paint(font, old(View()), Mark(x, y, i), !filled)
      {
        DrawMarkBlock(x + offsets[i], y, filled);
        NextMarkBlock(font, old(View()), x, y, i, !filled);
      }
    }

    method DrawPulseCountdown(cellX: byte, duration: uint32, end: int, now: nat)
      requires Valid() && cellX + 16 < WIDTH
      modifies frame
      ensures View() == var r := FirmwareRadius(duration, end, now);
                        PaintIf(font, old(View()), Bar(cellX, r), true, r > 0)
    {
      if duration == 0 || end <= now {
        return;
      }
      BarInsideCell(duration, end, now, cellX);
      var remaining := (end - now) % WRAP;
      if remaining > duration {
        remaining := duration;
      }
      var radius := (remaining * MAX_RADIUS + duration - 1) / duration;
      if radius == 0 {
        radius := 1;
      }
      assert radius == FirmwareRadius(duration, end, now);
      var centre := cellX + 17 / 2;
      var left := centre - radius + 1;
      var width := radius * 2 - 1;
      PaintNothing(font, View(), Block(left, 46, width, 0), true);
      for row := 0 to 2
        invariant View() == Paint(font, old(View()), Block(left, 46, width, row), true)
      {
        DrawHline(left, 46 + row, width);
        NextRow(font, old(View()), left, 46, width, row, true);
      }
    }

    method SetPixel(x: byte, y: byte)
      requires Valid()
      modifies frame
      ensures View() == Paint(font, old(View()), Dot(x, y), true)
    {
      if x < WIDTH && y < HEIGHT {
        DotPacked(font, frame[..], x, y, true);
        frame[y / 8 * WIDTH + x] := BitSet(frame[y / 8 * WIDTH + x], y % 8);
      } else {
        PaintNothing(font, View(), Dot(x, y), true);
      }
    }

    method ClearPixel(x: byte, y: byte)
      requires Valid()
      modifies frame
      ensures View() == Paint(font, old(View()), Dot(x, y), false)
    {
      if x < WIDTH && y < HEIGHT {
        DotPacked(font, frame[..], x, y, false);
        frame[y / 8 * WIDTH + x] := BitCleared(frame[y / 8 * WIDTH + x], y % 8);
      } else {
        PaintNothing(font, View(), Dot(x, y), false);
      }
    }

    method PlotPixel(x: byte, y: byte, clear: bool)
      requires Valid()
      modifies frame
      ensures View() == Paint(font, old(View()), Dot(x, y), !clear)
    {
      if clear {
        ClearPixel(x, y);
      } else {
        SetPixel(x, y);
      }
    }

    function GlyphBits(c: char, row: nat): nat
      requires row < 7
    {
      if c in font then font[c][row] else 0
    }

    /** One dot of a glyph whose dots before are already on `base`. */
    method DrawGlyphDot(ghost base: Grid, x: byte, y: byte, c: char, row: nat, col: nat, bits: nat, clear: bool)
      requires Valid() && row < 7 && col < 5
      requires Bit(bits, 4 - col) == Inked(font, c, row, col)
      requires View() == Paint(font, base, WrappedLetter(c, x, y, 5 * row + col), !clear)
      modifies frame
      ensures View() == Paint(font, base, WrappedLetter(c, x, y, 5 * row + col + 1), !clear)
    {
      NextWrappedDot(font, base, c, x, y, row, col, !clear);
      if Bit(bits, 4 - col) {
        PlotPixel((x + col) % 256, (y + row) % 256, clear);
      }
    }

    lemma GlyphBit(c: char, row: nat, col: nat)
      requires row < 7 && col < 5
      ensures Bit(GlyphBits(c, row), 4 - col) == Inked(font, c, row, col)
    {
      ZeroBits(4 - col);
    }

    /** One row of a glyph whose rows above are already on `base`. */
    method DrawGlyphRow(ghost base: Grid, x: byte, y: byte, c: char, row: nat, clear: bool)
      requires Valid() && row < 7 && View() == Paint(font, base, WrappedLetter(c, x, y, 5 * row), !clear)
      modifies frame
      ensures View() == Paint(font, base, WrappedLetter(c, x, y, 5 * (row + 1)), !clear)
    {
      var bits := GlyphBits(c, row);
      for col := 0 to 5
        invariant View() == Paint(font, base, WrappedLetter(c, x, y, 5 * row + col), !clear)
      {
        GlyphBit(c, row, col);
        DrawGlyphDot(base, x, y, c, row, col, bits, clear);
      }
    }

    method DrawChar(x: byte, y: byte, c: char, clear: bool)
      requires Valid()
      modifies frame
      ensures View() == Paint(font, old(View()), WrappedLetter(c, x, y, 35), !clear)
    {
      PaintNothing(font, View(), WrappedLetter(c, x, y, 0), !clear);
      for row := 0 to 7
        invariant View() == Paint(font, old(View()), WrappedLetter(c, x, y, 5 * row), !clear)
      {
        DrawGlyphRow(old(View()), x, y, c, row, clear);
      }
    }

    method DrawText(x: byte, y: byte, text: string)
      requires Valid()
      modifies frame
      ensures View() == Paint(font, old(View()), WrappedText(text, x, y, |text|), true)
      ensures y <= 249 ==> View() == Paint(font, old(View()), Line(text, x, y), true)
    {
      var at, i := x, 0;
      PaintNothing(font, View(), WrappedText(text, x, y, 0), true);
      while i < |text| && at <= WIDTH - 5
        invariant i <= |text| && at == x + 6 * i
        invariant View() == Paint(font, old(View()), WrappedText(text, x, y, i), true)
      {
        NextWrappedCharacter(font, old(View()), text, x, y, i);
        if text[i] != ' ' {
          DrawChar(at, y, text[i], false);
        }
        at := at + 6;
        i := i + 1;
      }
      WrappedTextEnds(font, old(View()), text, x, y, i);
      if y <= 249 {
        TextFits(font, old(View()), text, x, y);
      }
    }

    method DrawAnnunciators(ready: bool, active: bool, pulsing: bool, error: bool)
      requires Valid()
      modifies frame
      ensures View() == Annunciators(font, old(View()), ready, active, pulsing, error)
    {
      DrawText(3, 3, "USB");
      if ready {
        DrawText(3 + 26, 3, "RDY");
      }
      if active {
        DrawText(3 + 52, 3, "ACT");
      }
      if pulsing {
        DrawText(3 + 78, 3, "PLS");
      }
      if error {
        DrawText(3 + 108, 3, "ERR");
      }
    }

    method Clear()
      requires Valid()
      modifies frame
      ensures View() == Blank()
    {
      forall i | 0 <= i < FRAME_SIZE {
        frame[i] := 0;
      }
      forall u, v | 0 <= u < WIDTH && 0 <= v < HEIGHT
        ensures View()[v][u] == Blank()[v][u]
      {
        ZeroBits(v % 8);
      }
      SameGrid(View(), Blank());
    }

    method DrawCell(i: nat, cell: Cell, pulsing: bool, duration: uint32, end: int, now: nat)
      requires Valid() && i < CELLS && (cell.mark ==> pulsing)
      requires cell.radius == if pulsing then FirmwareRadius(duration, end, now) else 0
      modifies frame
      ensures View() == PaintCell(font, old(View()), CellX(i), cell)
    {
      var cellX := 3 + i * 21;
      DrawBox(cellX, cell);
      DrawPulse(cellX, cell, pulsing, duration, end, now);
    }

    method DrawBox(cellX: byte, cell: Cell)
      requires Valid() && cellX + 17 <= WIDTH
      modifies frame
      ensures View() == Paint(font, Paint(font, old(View()), Rect(cellX, 18, 17, 27, cell.filled), true),
                              Letter(cell.digit, cellX + 6, 28, 35), !cell.filled)
    {
      SidesOnScreen(View(), cellX, 18, 17, 27);
      DrawRect(cellX, 18, 17, 27, cell.filled);
      LetterFits(font, View(), cell.digit, cellX + 6, 28, !cell.filled);
      DrawChar(cellX + (17 - 5) / 2, 18 + (27 - 7) / 2, cell.digit, cell.filled);
    }

    method DrawPulse(cellX: byte, cell: Cell, pulsing: bool, duration: uint32, end: int, now: nat)
      requires Valid() && cellX + 17 <= WIDTH && (cell.mark ==> pulsing)
      requires cell.radius == if pulsing then FirmwareRadius(duration, end, now) else 0
      modifies frame
      ensures View() == PaintIf(font, PaintIf(font, old(View()), Mark(cellX + 11, 22, 2), !cell.filled, cell.mark),
                                Bar(cellX, cell.radius), true, cell.radius > 0)
    {
      if pulsing && cell.mark {
        DrawPulseMark(cellX + 11, 18 + 4, cell.filled);
      }
      if pulsing {
        DrawPulseCountdown(cellX, duration, end, now);
      }
    }

    method DrawCells(input: Input)
      requires Valid() && Timed(input)
      modifies frame
      ensures var cells := FirmwareScreen(input, reversed).cells;
              View() == PaintCells(font, old(View()), cells, |cells|)
    {
      ghost var cells := FirmwareScreen(input, reversed).cells;
      for i := 0 to CELLS
        invariant View() == PaintCells(font, old(View()), cells, i)
      {
        var channel := ChannelForCell(i, reversed);
        var cell := CellOf(input, channel);
        DrawCell(i, cell, channel in input.pulse, input.durations[channel], input.ends[channel], input.now);
      }
    }

    method DrawTop(ready: bool, active: bool, pulsing: bool, error: bool)
      requires Valid()
      modifies frame
      ensures View() == Rules(font, Annunciators(font, Blank(), ready, active, pulsing, error))
    {
      Clear();
      DrawAnnunciators(ready, active, pulsing, error);
      DrawHline(3, 13, 122);
      DrawHline(3, 50, 122);
    }

    method DrawBody(input: Input)
      requires Valid() && Timed(input)
      modifies frame
      ensures View() == Body(font, FirmwareScreen(input, reversed))
    {
      DrawTop(input.ready, input.state + input.pulse != {}, input.pulse != {}, input.error);
      ghost var top := View();
      DrawCells(input);
      BodyDone(font, FirmwareScreen(input, reversed), top, View());
    }

    method DrawStatus(mode: string, detail: string, detailX: byte)
      requires Valid() && detailX == DetailX(detail)
      modifies frame
      ensures View() == Status(font, old(View()), mode, detail)
    {
      DrawText(3, 54, mode);
      if detail != "" {
        DrawText(detailX, 54, detail);
      }
    }

    /** The whole frame, as it is sent to the panel. */
    method RenderFrame(input: Input)
      requires Valid() && Timed(input)
      modifies frame
      ensures View() == Picture(font, FirmwareScreen(input, reversed))
    {
      var detailText := DetailText(input.detail);
      var detailX := DetailColumn(detailText);
      DrawBody(input);
      ghost var body := View();
      DrawStatus(ModeText(input.mode), detailText, detailX);
      Finished(font, FirmwareScreen(input, reversed), body, View(), ModeText(input.mode), detailText);
    }
  }

  lemma {:induction false} ZeroBits(k: nat)
    ensures !Bit(0, k)
  {
    if k > 0 {
      ZeroBits(k - 1);
    }
  }
}
