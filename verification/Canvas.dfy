/** The 128 by 64 picture both renderers draw, and what drawing a shape does to it, pixel by pixel. */
module Canvas {
  const WIDTH: nat := 128
  const HEIGHT: nat := 64

  /** Rows of pixels, from the top. */
  type Grid = g: seq<seq<bool>> | |g| == HEIGHT && forall v :: 0 <= v < HEIGHT ==> |g[v]| == WIDTH
    witness seq(HEIGHT, _ => seq(WIDTH, _ => false))

  /** Seven rows of five bits, the leftmost pixel in bit 4. */
  type Glyph = rows: seq<nat> | |rows| == 7 witness [0, 0, 0, 0, 0, 0, 0]

  type Font = map<char, Glyph>

  predicate Bit(n: nat, k: nat) {
    if k == 0 then n % 2 == 1 else Bit(n / 2, k - 1)
  }

  /** A glyph's bits, row by row; a character without a glyph has none. */
  predicate Inked(font: Font, c: char, row: nat, col: nat)
    requires row < 7 && col < 5
  {
    c in font && Bit(font[c][row], 4 - col)
  }

  /**
   * Regions of the plane. Of a glyph the first n of its 35 positions count, of a text its first n characters, of a
   * pulse mark its first n two by two blocks. Coordinates of eight bits make a letter come in again on the other side.
   */
  datatype Shape =
    | Nothing
    | Dot(x: int, y: int)
    | Block(x: int, y: int, w: int, h: int)
    | Outline(x: int, y: int, w: int, h: int)
    | Letter(c: char, x: int, y: int, n: nat)
    | Text(s: string, x: int, y: int, n: nat)
    | Mark(x: int, y: int, n: nat)
    | WrappedLetter(c: char, x: int, y: int, n: nat)
    | WrappedText(s: string, x: int, y: int, n: nat)

  function HLine(x: int, y: int, w: int): Shape {
    Block(x, y, w, 1)
  }

  function VLine(x: int, y: int, h: int): Shape {
    Block(x, y, 1, h)
  }

  predicate InBlock(x: int, y: int, w: int, h: int, u: int, v: int) {
    x <= u < x + w && y <= v < y + h
  }

  predicate InLetter(font: Font, c: char, x: int, y: int, n: nat, u: int, v: int) {
    InBlock(x, y, 5, 7, u, v) && 5 * (v - y) + (u - x) < n && Inked(font, c, v - y, u - x)
  }

  /** Characters are six columns apart; spaces draw nothing, nor does a character that starts beyond column 123. */
  predicate InText(font: Font, s: string, x: int, y: int, n: nat, u: int, v: int) {
    exists i :: 0 <= i < |s| && i < n && s[i] != ' ' && x + 6 * i <= 123 && InLetter(font, s[i], x + 6 * i, y, 35, u, v)
  }

  predicate In(font: Font, shape: Shape, u: int, v: int) {
    match shape
    case Nothing => false
    case Dot(x, y) => u == x && v == y
    case Block(x, y, w, h) => InBlock(x, y, w, h, u, v)
    case Outline(x, y, w, h) =>
      || InBlock(x, y, w, 1, u, v) || InBlock(x, y + h - 1, w, 1, u, v)
      || InBlock(x, y, 1, h, u, v) || InBlock(x + w - 1, y, 1, h, u, v)
    case Letter(c, x, y, n) => InLetter(font, c, x, y, n, u, v)
    case Text(s, x, y, n) => InText(font, s, x, y, n, u, v)
    case Mark(x, y, n) =>
      (n > 0 && InBlock(x, y, 2, 2, u, v)) || (n > 1 && InBlock(x + 3, y, 2, 2, u, v))
    case WrappedLetter(c, x, y, n) => InLetter(font, c, 0, 0, n, (u - x) % 256, (v - y) % 256)
    case WrappedText(s, x, y, n) => InText(font, s, x, 0, n, u, (v - y) % 256)
  }

  function Blank(): Grid {
    seq(HEIGHT, _ => seq(WIDTH, _ => false))
  }

  /** The picture with the pixels of a shape lit or cleared, and every other pixel kept. */
  function Paint(font: Font, g: Grid, shape: Shape, on: bool): Grid {
    seq(HEIGHT, v requires 0 <= v < HEIGHT =>
      seq(WIDTH, u requires 0 <= u < WIDTH => if In(font, shape, u, v) then on else g[v][u]))
  }

  /** Two pictures are the same when their pixels are. */
  lemma SameGrid(g: Grid, h: Grid)
    requires forall u, v :: 0 <= u < WIDTH && 0 <= v < HEIGHT ==> g[v][u] == h[v][u]
    ensures g == h
  {
    forall v | 0 <= v < HEIGHT
      ensures g[v] == h[v]
    {
    }
  }

  lemma PaintNothing(font: Font, g: Grid, shape: Shape, on: bool)
    requires forall u, v :: 0 <= u < WIDTH && 0 <= v < HEIGHT ==> !In(font, shape, u, v)
    ensures Paint(font, g, shape, on) == g
  {
    SameGrid(Paint(font, g, shape, on), g);
  }

  /** A shape put together from two that are drawn one after the other. */
  lemma PaintUnion(font: Font, g: Grid, a: Shape, b: Shape, whole: Shape, on: bool)
    requires forall u, v :: 0 <= u < WIDTH && 0 <= v < HEIGHT ==>
                              (In(font, whole, u, v) <==> In(font, a, u, v) || In(font, b, u, v))
    ensures Paint(font, Paint(font, g, a, on), b, on) == Paint(font, g, whole, on)
  {
    SameGrid(Paint(font, Paint(font, g, a, on), b, on), Paint(font, g, whole, on));
  }

  // ----- The steps the drawing loops take -----

  lemma NextDotRight(font: Font, g: Grid, x: int, y: int, n: nat, on: bool)
    ensures Paint(font, Paint(font, g, HLine(x, y, n), on), Dot(x + n, y), on) == Paint(font, g, HLine(x, y, n + 1), on)
  {
    PaintUnion(font, g, HLine(x, y, n), Dot(x + n, y), HLine(x, y, n + 1), on);
  }

  lemma NextDotDown(font: Font, g: Grid, x: int, y: int, n: nat, on: bool)
    ensures Paint(font, Paint(font, g, VLine(x, y, n), on), Dot(x, y + n), on) == Paint(font, g, VLine(x, y, n + 1), on)
  {
    PaintUnion(font, g, VLine(x, y, n), Dot(x, y + n), VLine(x, y, n + 1), on);
  }

  lemma NextRow(font: Font, g: Grid, x: int, y: int, w: int, n: nat, on: bool)
    ensures Paint(font, Paint(font, g, Block(x, y, w, n), on), HLine(x, y + n, w), on)
            == Paint(font, g, Block(x, y, w, n + 1), on)
  {
    PaintUnion(font, g, Block(x, y, w, n), HLine(x, y + n, w), Block(x, y, w, n + 1), on);
  }

  /** The part of a line that is off the screen makes no difference. */
  lemma ClippedRight(font: Font, g: Grid, x: int, y: int, n: nat, w: nat, on: bool)
    requires n <= w && x + n >= WIDTH
    ensures Paint(font, g, HLine(x, y, n), on) == Paint(font, g, HLine(x, y, w), on)
  {
    SameGrid(Paint(font, g, HLine(x, y, n), on), Paint(font, g, HLine(x, y, w), on));
  }

  lemma ClippedBelow(font: Font, g: Grid, x: int, y: int, n: nat, h: nat, on: bool)
    requires n <= h && y + n >= HEIGHT
    ensures Paint(font, g, VLine(x, y, n), on) == Paint(font, g, VLine(x, y, h), on)
  {
    SameGrid(Paint(font, g, VLine(x, y, n), on), Paint(font, g, VLine(x, y, h), on));
  }

  lemma FourSides(font: Font, g: Grid, x: int, y: int, w: int, h: int)
    ensures Paint(font, Paint(font, Paint(font, Paint(font, g, HLine(x, y, w), true), HLine(x, y + h - 1, w), true),
                  VLine(x, y, h), true), VLine(x + w - 1, y, h), true)
            == Paint(font, g, Outline(x, y, w, h), true)
  {
    var g1 := Paint(font, g, HLine(x, y, w), true);
    var g2 := Paint(font, g1, HLine(x, y + h - 1, w), true);
    var g3 := Paint(font, g2, VLine(x, y, h), true);
    SameGrid(Paint(font, g3, VLine(x + w - 1, y, h), true), Paint(font, g, Outline(x, y, w, h), true));
  }

  lemma NextLetterDot(font: Font, g: Grid, c: char, x: int, y: int, row: nat, col: nat, on: bool)
    requires row < 7 && col < 5
    ensures var part := Paint(font, g, Letter(c, x, y, 5 * row + col), on);
            (if Inked(font, c, row, col) then Paint(font, part, Dot(x + col, y + row), on) else part)
            == Paint(font, g, Letter(c, x, y, 5 * row + col + 1), on)
  {
    var n := 5 * row + col;
    forall u, v | 0 <= u < WIDTH && 0 <= v < HEIGHT
      ensures In(font, Letter(c, x, y, n + 1), u, v) <==>
              In(font, Letter(c, x, y, n), u, v) || (u == x + col && v == y + row && Inked(font, c, row, col))
    {
      if InBlock(x, y, 5, 7, u, v) && 5 * (v - y) + (u - x) == n {
        assert v - y == row;
      }
    }
    var dot := if Inked(font, c, row, col) then Dot(x + col, y + row) else Nothing;
    PaintUnion(font, g, Letter(c, x, y, n), dot, Letter(c, x, y, n + 1), on);
    if !Inked(font, c, row, col) {
      PaintNothing(font, Paint(font, g, Letter(c, x, y, n), on), dot, on);
    }
  }

  lemma NextCharacter(font: Font, g: Grid, s: string, x: int, y: int, n: nat)
    requires n < |s| && x + 6 * n <= 123
    ensures var part := Paint(font, g, Text(s, x, y, n), true);
            (if s[n] != ' ' then Paint(font, part, Letter(s[n], x + 6 * n, y, 35), true) else part)
            == Paint(font, g, Text(s, x, y, n + 1), true)
  {
    var letter := if s[n] != ' ' then Letter(s[n], x + 6 * n, y, 35) else Nothing;
    forall u, v | 0 <= u < WIDTH && 0 <= v < HEIGHT
      ensures In(font, Text(s, x, y, n + 1), u, v) <==> In(font, Text(s, x, y, n), u, v) || In(font, letter, u, v)
    {
    }
    PaintUnion(font, g, Text(s, x, y, n), letter, Text(s, x, y, n + 1), true);
    if s[n] == ' ' {
      PaintNothing(font, Paint(font, g, Text(s, x, y, n), true), letter, true);
    }
  }

  /** Characters past the right edge make no difference. */
  lemma TextEnds(font: Font, g: Grid, s: string, x: int, y: int, n: nat)
    requires n <= |s| && (n < |s| ==> x + 6 * n > 123)
    ensures Paint(font, g, Text(s, x, y, n), true) == Paint(font, g, Text(s, x, y, |s|), true)
  {
    forall u, v | 0 <= u < WIDTH && 0 <= v < HEIGHT
      ensures In(font, Text(s, x, y, |s|), u, v) <==> In(font, Text(s, x, y, n), u, v)
    {
    }
    SameGrid(Paint(font, g, Text(s, x, y, n), true), Paint(font, g, Text(s, x, y, |s|), true));
  }

  // ----- Coordinates of eight bits -----

  lemma Distance(u: nat, x: nat)
    requires u < 256 && x < 256
    ensures (u - x) % 256 == if u >= x then u - x else u - x + 256
  {
  }

  lemma NextWrappedDot(font: Font, g: Grid, c: char, x: nat, y: nat, row: nat, col: nat, on: bool)
    requires row < 7 && col < 5 && x < 256 && y < 256
    ensures var part := Paint(font, g, WrappedLetter(c, x, y, 5 * row + col), on);
            (if Inked(font, c, row, col) then Paint(font, part, Dot((x + col) % 256, (y + row) % 256), on) else part)
            == Paint(font, g, WrappedLetter(c, x, y, 5 * row + col + 1), on)
  {
    var n := 5 * row + col;
    var dot := if Inked(font, c, row, col) then Dot((x + col) % 256, (y + row) % 256) else Nothing;
    forall u, v | 0 <= u < WIDTH && 0 <= v < HEIGHT
      ensures In(font, WrappedLetter(c, x, y, n + 1), u, v) <==>
              In(font, WrappedLetter(c, x, y, n), u, v) || In(font, dot, u, v)
    {
      Distance(u, x);
      Distance(v, y);
      NextPosition(font, c, row, col, (u - x) % 256, (v - y) % 256);
    }
    PaintUnion(font, g, WrappedLetter(c, x, y, n), dot, WrappedLetter(c, x, y, n + 1), on);
    if !Inked(font, c, row, col) {
      PaintNothing(font, Paint(font, g, WrappedLetter(c, x, y, n), on), dot, on);
    }
  }

  lemma NextPosition(font: Font, c: char, row: nat, col: nat, u: nat, v: nat)
    requires row < 7 && col < 5
    ensures InLetter(font, c, 0, 0, 5 * row + col + 1, u, v) <==>
            InLetter(font, c, 0, 0, 5 * row + col, u, v) || (u == col && v == row && Inked(font, c, row, col))
  {
    if InBlock(0, 0, 5, 7, u, v) && 5 * v + u == 5 * row + col {
      assert v == row;
    }
  }

  /** A letter up to column 251 and row 249 does not wrap. */
  lemma LetterFits(font: Font, g: Grid, c: char, x: nat, y: nat, on: bool)
    requires x <= 251 && y <= 249
    ensures Paint(font, g, WrappedLetter(c, x, y, 35), on) == Paint(font, g, Letter(c, x, y, 35), on)
  {
    forall u, v | 0 <= u < WIDTH && 0 <= v < HEIGHT
      ensures In(font, WrappedLetter(c, x, y, 35), u, v) <==> In(font, Letter(c, x, y, 35), u, v)
    {
      Distance(u, x);
      Distance(v, y);
    }
    SameGrid(Paint(font, g, WrappedLetter(c, x, y, 35), on), Paint(font, g, Letter(c, x, y, 35), on));
  }

  lemma NextWrappedCharacter(font: Font, g: Grid, s: string, x: nat, y: nat, n: nat)
    requires n < |s| && x + 6 * n <= 123 && y < 256
    ensures var part := Paint(font, g, WrappedText(s, x, y, n), true);
            (if s[n] != ' ' then Paint(font, part, WrappedLetter(s[n], x + 6 * n, y, 35), true) else part)
            == Paint(font, g, WrappedText(s, x, y, n + 1), true)
  {
    var letter := if s[n] != ' ' then WrappedLetter(s[n], x + 6 * n, y, 35) else Nothing;
    forall u, v | 0 <= u < WIDTH && 0 <= v < HEIGHT
      ensures In(font, WrappedText(s, x, y, n + 1), u, v) <==>
              In(font, WrappedText(s, x, y, n), u, v) || In(font, letter, u, v)
    {
      Distance(u, x + 6 * n);
    }
    PaintUnion(font, g, WrappedText(s, x, y, n), letter, WrappedText(s, x, y, n + 1), true);
    if s[n] == ' ' {
      PaintNothing(font, Paint(font, g, WrappedText(s, x, y, n), true), letter, true);
    }
  }

  lemma WrappedTextEnds(font: Font, g: Grid, s: string, x: int, y: int, n: nat)
    requires n <= |s| && (n < |s| ==> x + 6 * n > 123)
    ensures Paint(font, g, WrappedText(s, x, y, n), true) == Paint(font, g, WrappedText(s, x, y, |s|), true)
  {
    forall u, v | 0 <= u < WIDTH && 0 <= v < HEIGHT
      ensures In(font, WrappedText(s, x, y, |s|), u, v) <==> In(font, WrappedText(s, x, y, n), u, v)
    {
    }
    SameGrid(Paint(font, g, WrappedText(s, x, y, n), true), Paint(font, g, WrappedText(s, x, y, |s|), true));
  }

  /** A text up to row 249 does not wrap. */
  lemma TextFits(font: Font, g: Grid, s: string, x: int, y: nat)
    requires y <= 249
    ensures Paint(font, g, WrappedText(s, x, y, |s|), true) == Paint(font, g, Text(s, x, y, |s|), true)
  {
    forall u, v | 0 <= u < WIDTH && 0 <= v < HEIGHT
      ensures In(font, WrappedText(s, x, y, |s|), u, v) <==> In(font, Text(s, x, y, |s|), u, v)
    {
      Distance(v, y);
      ShiftedText(font, s, x, y, u, v);
    }
    SameGrid(Paint(font, g, WrappedText(s, x, y, |s|), true), Paint(font, g, Text(s, x, y, |s|), true));
  }

  lemma ShiftedText(font: Font, s: string, x: int, y: nat, u: int, v: int)
    requires y <= 249 && 0 <= v < HEIGHT
    ensures InText(font, s, x, 0, |s|, u, (v - y) % 256) <==> InText(font, s, x, y, |s|, u, v)
  {
    Distance(v, y);
    forall i | 0 <= i < |s|
      ensures InLetter(font, s[i], x + 6 * i, 0, 35, u, (v - y) % 256) <==>
              InLetter(font, s[i], x + 6 * i, y, 35, u, v)
    {
    }
  }

  /** Two blocks three columns apart make a mark. */
  lemma NextMarkBlock(font: Font, g: Grid, x: int, y: int, n: nat, on: bool)
    requires n < 2
    ensures Paint(font, Paint(font, g, Mark(x, y, n), on), Block(if n == 0 then x else x + 3, y, 2, 2), on)
            == Paint(font, g, Mark(x, y, n + 1), on)
  {
    PaintUnion(font, g, Mark(x, y, n), Block(if n == 0 then x else x + 3, y, 2, 2), Mark(x, y, n + 1), on);
  }
}
