/** What the relay screen shows: the order both renderers draw it in, and each pixel of the outcome. */
module Scene {
  import opened Canvas
  import Countdown

  datatype Cell = Cell(digit: char, filled: bool, mark: bool, radius: nat)

  datatype Screen = Screen(ready: bool, active: bool, pulsing: bool, error: bool, cells: seq<Cell>, mode: string,
                         detail: string)

  const CELLS: nat := 6

  function Digit(channel: nat): char
    requires channel < CELLS
  {
    ('1' as int + channel) as char
  }

  /** Six cells; a pulse mark or a countdown bar is only on a filled one, and the bar fits the cell. */
  predicate Proper(scene: Screen) {
    |scene.cells| == CELLS &&
    forall i :: 0 <= i < CELLS ==>
      && (scene.cells[i].mark || scene.cells[i].radius > 0 ==> scene.cells[i].filled)
      && scene.cells[i].radius <= Countdown.MAX_RADIUS
  }

  // ----- In drawing order -----

  function PaintIf(font: Font, g: Grid, shape: Shape, on: bool, wanted: bool): Grid {
    if wanted then Paint(font, g, shape, on) else g
  }

  function Line(s: string, x: int, y: int): Shape {
    Text(s, x, y, |s|)
  }

  function Annunciators(font: Font, g: Grid, ready: bool, active: bool, pulsing: bool, error: bool): Grid {
    var g1 := Paint(font, g, Line("USB", 3, 3), true);
    var g2 := PaintIf(font, g1, Line("RDY", 29, 3), true, ready);
    var g3 := PaintIf(font, g2, Line("ACT", 55, 3), true, active);
    var g4 := PaintIf(font, g3, Line("PLS", 81, 3), true, pulsing);
    PaintIf(font, g4, Line("ERR", 111, 3), true, error)
  }

  function Rules(font: Font, g: Grid): Grid {
    Paint(font, Paint(font, g, HLine(3, 13, 122), true), HLine(3, 50, 122), true)
  }

  function Rect(x: int, y: int, w: int, h: int, filled: bool): Shape {
    if filled then Block(x, y, w, h) else Outline(x, y, w, h)
  }

  function Bar(x: int, radius: nat): Shape {
    if radius == 0 then Nothing else Block(x + 8 - radius + 1, 46, 2 * radius - 1, 2)
  }

  function CellX(i: nat): nat {
    3 + 21 * i
  }

  function PaintCell(font: Font, g: Grid, x: int, cell: Cell): Grid {
    var g1 := Paint(font, g, Rect(x, 18, 17, 27, cell.filled), true);
    var g2 := Paint(font, g1, Letter(cell.digit, x + 6, 28, 35), !cell.filled);
    var g3 := PaintIf(font, g2, Mark(x + 11, 22, 2), !cell.filled, cell.mark);
    PaintIf(font, g3, Bar(x, cell.radius), true, cell.radius > 0)
  }

  function PaintCells(font: Font, g: Grid, cells: seq<Cell>, n: nat): Grid
    requires n <= |cells|
    decreases n
  {
    if n == 0 then g else PaintCell(font, PaintCells(font, g, cells, n - 1), CellX(n - 1), cells[n - 1])
  }

  function TextWidth(s: string): nat {
    if s == "" then 0 else 6 * |s| - 1
  }

  /** Right-aligned at column 124. */
  function DetailX(detail: string): int {
    124 - TextWidth(detail) + 1
  }

  function Status(font: Font, g: Grid, mode: string, detail: string): Grid {
    PaintIf(font, Paint(font, g, Line(mode, 3, 54), true), Line(detail, DetailX(detail), 54), true, detail != "")
  }

  function Body(font: Font, scene: Screen): Grid
    requires |scene.cells| == CELLS
  {
    var top := Rules(font, Annunciators(font, Blank(), scene.ready, scene.active, scene.pulsing, scene.error));
    PaintCells(font, top, scene.cells, |scene.cells|)
  }

  function Picture(font: Font, scene: Screen): Grid
    requires |scene.cells| == CELLS
  {
    Status(font, Body(font, scene), scene.mode, scene.detail)
  }

  lemma BodyDone(font: Font, screen: Screen, top: Grid, g: Grid)
    requires |screen.cells| == CELLS && g == PaintCells(font, top, screen.cells, |screen.cells|)
    requires top == Rules(font, Annunciators(font, Blank(), screen.ready, screen.active, screen.pulsing, screen.error))
    ensures g == Body(font, screen)
  {
  }

  /** The status line over the rest makes the picture. */
  lemma Finished(font: Font, screen: Screen, body: Grid, g: Grid, mode: string, detail: string)
    requires |screen.cells| == CELLS && body == Body(font, screen)
    requires mode == screen.mode && detail == screen.detail && g == Status(font, body, mode, detail)
    ensures g == Picture(font, screen)
  {
  }

  // ----- Pixel by pixel -----

  /** A pixel of a character: seven rows of five, the leftmost in bit 4. */
  predicate Shown(font: Font, c: char, row: int, col: int) {
    0 <= row < 7 && 0 <= col < 5 && c in font && font[c][row] / [16, 8, 4, 2, 1][col] % 2 == 1
  }

  /** A pixel of a text: a character every six columns, none from column 124 on. */
  predicate Printed(font: Font, s: string, x: int, y: int, u: int, v: int) {
    exists i :: 0 <= i < |s| && s[i] != ' ' && x + 6 * i <= 123 && Shown(font, s[i], v - y, u - (x + 6 * i))
  }

  lemma {:induction false} ShownIff(font: Font, c: char, x: int, y: int, u: int, v: int)
    ensures Shown(font, c, v - y, u - x) <==> InLetter(font, c, x, y, 35, u, v)
  {
    if InBlock(x, y, 5, 7, u, v) && c in font {
      BitIs(font[c][v - y]);
    }
  }

  lemma {:induction false} BitIs(n: nat)
    ensures Bit(n, 0) <==> n % 2 == 1
    ensures Bit(n, 1) <==> n / 2 % 2 == 1
    ensures Bit(n, 2) <==> n / 4 % 2 == 1
    ensures Bit(n, 3) <==> n / 8 % 2 == 1
    ensures Bit(n, 4) <==> n / 16 % 2 == 1
  {
    assert Bit(n, 1) == Bit(n / 2, 0);
    assert Bit(n, 2) == Bit(n / 2, 1) == Bit(n / 4, 0);
    assert Bit(n, 3) == Bit(n / 2, 2) == Bit(n / 4, 1) == Bit(n / 8, 0);
    assert Bit(n, 4) == Bit(n / 2, 3) == Bit(n / 4, 2) == Bit(n / 8, 1) == Bit(n / 16, 0);
  }

  lemma {:induction false} PrintedIff(font: Font, s: string, x: int, y: int, u: int, v: int)
    ensures Printed(font, s, x, y, u, v) <==> In(font, Line(s, x, y), u, v)
  {
    forall i | 0 <= i < |s|
      ensures Shown(font, s[i], v - y, u - (x + 6 * i)) <==> InLetter(font, s[i], x + 6 * i, y, 35, u, v)
    {
      ShownIff(font, s[i], x + 6 * i, y, u, v);
    }
  }

  predicate Top(font: Font, scene: Screen, u: int, v: int) {
    || Printed(font, "USB", 3, 3, u, v)
    || (scene.ready && Printed(font, "RDY", 29, 3, u, v))
    || (scene.active && Printed(font, "ACT", 55, 3, u, v))
    || (scene.pulsing && Printed(font, "PLS", 81, 3, u, v))
    || (scene.error && Printed(font, "ERR", 111, 3, u, v))
  }

  /** A cell at its own origin: frame, label and mark in rows 18 to 44, the bar in rows 46 and 47. */
  predicate CellLit(font: Font, cell: Cell, du: int, v: int) {
    var digit := Shown(font, cell.digit, v - 28, du - 6);
    var mark := cell.mark && v in {22, 23} && du in {11, 12, 14, 15};
    if 18 <= v < 45 then
      if cell.filled then !digit && !mark
      else du == 0 || du == 16 || v == 18 || v == 44 || digit || mark
    else 46 <= v < 48 && cell.radius > 0 && du - 8 < cell.radius && 8 - du < cell.radius
  }

  /** Cells are 17 columns wide, 21 apart, from column 3. */
  predicate Within(u: int, i: nat) {
    3 + 21 * i <= u < 20 + 21 * i
  }

  predicate SomeCellLit(font: Font, cells: seq<Cell>, n: nat, u: int, v: int)
    requires n <= |cells|
  {
    exists i :: 0 <= i < n && Within(u, i) && CellLit(font, cells[i], u - (3 + 21 * i), v)
  }

  /** Every lit pixel, by its row; the detail ends at column 124. */
  predicate Lit(font: Font, scene: Screen, u: int, v: int)
    requires |scene.cells| == CELLS
  {
    if v < 13 then Top(font, scene, u, v)
    else if v == 13 || v == 50 then 3 <= u < 125
    else if v < 50 then SomeCellLit(font, scene.cells, CELLS, u, v)
    else
      || Printed(font, scene.mode, 3, 54, u, v)
      || Printed(font, scene.detail, 126 - 6 * |scene.detail|, 54, u, v)
  }

  predicate OnScreen(u: int, v: int) {
    0 <= u < 128 && 0 <= v < 64
  }

  /** A cell drawn on dark pixels makes its own columns what CellLit says, and changes no other. */
  lemma CellPixel(font: Font, g: Grid, i: nat, cell: Cell, u: int, v: int)
    requires OnScreen(u, v) && cell.radius <= 8 && (cell.mark ==> cell.filled)
    requires Within(u, i) && 14 <= v < 50 ==> !g[v][u]
    ensures PaintCell(font, g, CellX(i), cell)[v][u] ==
            if Within(u, i) && 14 <= v < 50 then CellLit(font, cell, u - CellX(i), v) else g[v][u]
  {
    ShownIff(font, cell.digit, CellX(i) + 6, 28, u, v);
  }

  lemma OneMoreCell(font: Font, cells: seq<Cell>, n: nat, u: int, v: int)
    requires 0 < n <= |cells|
    ensures SomeCellLit(font, cells, n, u, v) ==
            if Within(u, n - 1) then CellLit(font, cells[n - 1], u - CellX(n - 1), v)
            else SomeCellLit(font, cells, n - 1, u, v)
    ensures Within(u, n - 1) ==> !SomeCellLit(font, cells, n - 1, u, v)
  {
    if Within(u, n - 1) && CellLit(font, cells[n - 1], u - CellX(n - 1), v) {
      assert SomeCellLit(font, cells, n, u, v);
    }
  }

  lemma {:induction false} CellsPixel(font: Font, g: Grid, cells: seq<Cell>, n: nat, u: int, v: int)
    requires OnScreen(u, v) && n <= |cells| <= CELLS && (14 <= v < 50 ==> !g[v][u])
    requires forall i :: 0 <= i < |cells| ==> cells[i].radius <= 8 && (cells[i].mark ==> cells[i].filled)
    ensures PaintCells(font, g, cells, n)[v][u] ==
            if 14 <= v < 50 then SomeCellLit(font, cells, n, u, v) else g[v][u]
    decreases n
  {
    if n > 0 {
      CellsPixel(font, g, cells, n - 1, u, v);
      NextCellPixel(font, PaintCells(font, g, cells, n - 1), cells, n, u, v);
    }
  }

  lemma NextCellPixel(font: Font, before: Grid, cells: seq<Cell>, n: nat, u: int, v: int)
    requires OnScreen(u, v) && 0 < n <= |cells| <= CELLS
    requires 14 <= v < 50 ==> (before[v][u] <==> SomeCellLit(font, cells, n - 1, u, v))
    requires cells[n - 1].radius <= 8 && (cells[n - 1].mark ==> cells[n - 1].filled)
    ensures PaintCell(font, before, CellX(n - 1), cells[n - 1])[v][u] ==
            if 14 <= v < 50 then SomeCellLit(font, cells, n, u, v) else before[v][u]
  {
    OneMoreCell(font, cells, n, u, v);
    CellPixel(font, before, n - 1, cells[n - 1], u, v);
  }

  lemma TextRows(font: Font, s: string, x: int, y: int, u: int, v: int)
    ensures In(font, Line(s, x, y), u, v) ==> y <= v < y + 7
  {
  }

  lemma PrintedRows(font: Font, s: string, x: int, y: int, u: int, v: int)
    ensures Printed(font, s, x, y, u, v) <==> In(font, Line(s, x, y), u, v)
    ensures Printed(font, s, x, y, u, v) ==> y <= v < y + 7
  {
    PrintedIff(font, s, x, y, u, v);
    TextRows(font, s, x, y, u, v);
  }

  lemma AnnunciatorPixel(font: Font, scene: Screen, u: int, v: int)
    requires OnScreen(u, v)
    ensures Annunciators(font, Blank(), scene.ready, scene.active, scene.pulsing, scene.error)[v][u]
            == Top(font, scene, u, v)
    ensures Top(font, scene, u, v) ==> 3 <= v < 10
  {
    PrintedRows(font, "USB", 3, 3, u, v);
    PrintedRows(font, "RDY", 29, 3, u, v);
    PrintedRows(font, "ACT", 55, 3, u, v);
    PrintedRows(font, "PLS", 81, 3, u, v);
    PrintedRows(font, "ERR", 111, 3, u, v);
  }

  lemma StatusPixel(font: Font, g: Grid, scene: Screen, u: int, v: int)
    requires OnScreen(u, v)
    ensures Status(font, g, scene.mode, scene.detail)[v][u] <==>
            || g[v][u]
            || Printed(font, scene.mode, 3, 54, u, v)
            || Printed(font, scene.detail, 126 - 6 * |scene.detail|, 54, u, v)
    ensures v < 54 ==> Status(font, g, scene.mode, scene.detail)[v][u] == g[v][u]
  {
    PrintedRows(font, scene.mode, 3, 54, u, v);
    PrintedRows(font, scene.detail, 126 - 6 * |scene.detail|, 54, u, v);
  }

  lemma RulesPixel(font: Font, g: Grid, u: int, v: int)
    requires OnScreen(u, v)
    ensures Rules(font, g)[v][u] == (g[v][u] || ((v == 13 || v == 50) && 3 <= u < 125))
  {
  }

  /** The pixels of everything above the status line. */
  predicate BodyLit(font: Font, scene: Screen, u: int, v: int)
    requires |scene.cells| == CELLS
  {
    if 14 <= v < 50 then SomeCellLit(font, scene.cells, CELLS, u, v)
    else Top(font, scene, u, v) || ((v == 13 || v == 50) && 3 <= u < 125)
  }

  lemma CellsOverRules(font: Font, top: Grid, scene: Screen, u: int, v: int)
    requires Proper(scene) && OnScreen(u, v)
    requires top[v][u] == Top(font, scene, u, v) && (Top(font, scene, u, v) ==> 3 <= v < 10)
    ensures PaintCells(font, Rules(font, top), scene.cells, |scene.cells|)[v][u] == BodyLit(font, scene, u, v)
  {
    RulesPixel(font, top, u, v);
    CellsPixel(font, Rules(font, top), scene.cells, |scene.cells|, u, v);
  }

  lemma BodyPixel(font: Font, scene: Screen, u: int, v: int)
    requires Proper(scene) && OnScreen(u, v)
    ensures Body(font, scene)[v][u] == BodyLit(font, scene, u, v)
  {
    var top := Annunciators(font, Blank(), scene.ready, scene.active, scene.pulsing, scene.error);
    AnnunciatorPixel(font, scene, u, v);
    CellsOverRules(font, top, scene, u, v);
  }

  lemma StatusLit(font: Font, body: Grid, scene: Screen, u: int, v: int)
    requires |scene.cells| == CELLS && OnScreen(u, v) && body[v][u] == BodyLit(font, scene, u, v)
    ensures Status(font, body, scene.mode, scene.detail)[v][u] <==> Lit(font, scene, u, v)
  {
    StatusPixel(font, body, scene, u, v);
    AnnunciatorPixel(font, scene, u, v);
    PrintedRows(font, scene.mode, 3, 54, u, v);
    PrintedRows(font, scene.detail, 126 - 6 * |scene.detail|, 54, u, v);
  }

  /** The picture, drawn shape over shape with some of them erasing, has exactly the pixels Lit names. */
  lemma PictureLit(font: Font, scene: Screen, u: int, v: int)
    requires Proper(scene) && OnScreen(u, v)
    ensures Picture(font, scene)[v][u] <==> Lit(font, scene, u, v)
  {
    BodyPixel(font, scene, u, v);
    StatusLit(font, Body(font, scene), scene, u, v);
  }

  // ----- When two screens look the same -----

  ghost predicate LookSame(font: Font, a: Screen, b: Screen)
    requires |a.cells| == CELLS && |b.cells| == CELLS
  {
    forall u, v :: OnScreen(u, v) ==> (Lit(font, a, u, v) <==> Lit(font, b, u, v))
  }

  lemma SamePixels(font: Font, a: Screen, b: Screen)
    requires Proper(a) && Proper(b) && Picture(font, a) == Picture(font, b)
    ensures LookSame(font, a, b)
  {
    forall u, v | OnScreen(u, v)
      ensures Lit(font, a, u, v) <==> Lit(font, b, u, v)
    {
      PictureLit(font, a, u, v);
      PictureLit(font, b, u, v);
    }
  }

  /** The first column of a mark is dark in a filled cell exactly when the mark is there. */
  lemma LitAtMark(font: Font, scene: Screen, i: nat)
    requires Proper(scene) && i < CELLS && scene.cells[i].filled
    ensures Lit(font, scene, CellX(i) + 11, 22) <==> !scene.cells[i].mark
  {
    assert Within(CellX(i) + 11, i);
  }

  lemma LitAtBar(font: Font, scene: Screen, i: nat, r: nat)
    requires Proper(scene) && i < CELLS && 1 <= r <= 8
    ensures Lit(font, scene, CellX(i) + 9 - r, 46) <==> scene.cells[i].radius >= r
  {
    assert Within(CellX(i) + 9 - r, i);
  }

  lemma CellVisible(font: Font, a: Screen, b: Screen, i: nat)
    requires Proper(a) && Proper(b) && i < CELLS && a.cells[i].filled == b.cells[i].filled
    requires LookSame(font, a, b)
    ensures a.cells[i].mark == b.cells[i].mark && a.cells[i].radius == b.cells[i].radius
  {
    if a.cells[i].filled {
      LitAtMark(font, a, i);
      LitAtMark(font, b, i);
      assert OnScreen(CellX(i) + 11, 22);
    }
    var r := if a.cells[i].radius > b.cells[i].radius then a.cells[i].radius else b.cells[i].radius;
    if r > 0 {
      LitAtBar(font, a, i, r);
      LitAtBar(font, b, i, r);
      assert OnScreen(CellX(i) + 9 - r, 46);
    }
  }

  /** The screens differ at most in marks and bars. */
  predicate Alike(a: Screen, b: Screen)
    requires |a.cells| == CELLS && |b.cells| == CELLS
  {
    && a.(cells := b.cells) == b
    && forall i :: 0 <= i < CELLS ==>
                     a.cells[i].digit == b.cells[i].digit && a.cells[i].filled == b.cells[i].filled
  }

  predicate SameMarksAndBars(a: Screen, b: Screen)
    requires |a.cells| == CELLS && |b.cells| == CELLS
  {
    forall i :: 0 <= i < CELLS ==> a.cells[i].mark == b.cells[i].mark && a.cells[i].radius == b.cells[i].radius
  }

  lemma CellsVisible(font: Font, a: Screen, b: Screen)
    requires Proper(a) && Proper(b) && Alike(a, b) && LookSame(font, a, b)
    ensures SameMarksAndBars(a, b)
  {
    forall i | 0 <= i < CELLS
      ensures a.cells[i].mark == b.cells[i].mark && a.cells[i].radius == b.cells[i].radius
    {
      CellVisible(font, a, b, i);
    }
  }

  lemma SameScreen(a: Screen, b: Screen)
    requires |a.cells| == CELLS && |b.cells| == CELLS && Alike(a, b) && SameMarksAndBars(a, b)
    ensures a == b
  {
    assert a.cells == b.cells;
  }

  /** Two screens that differ at most in their marks and bars look the same exactly when those agree. */
  lemma SamePictureIff(font: Font, a: Screen, b: Screen)
    requires Proper(a) && Proper(b) && Alike(a, b)
    ensures Picture(font, a) == Picture(font, b) <==> SameMarksAndBars(a, b)
  {
    if SameMarksAndBars(a, b) {
      SameScreen(a, b);
    } else if Picture(font, a) == Picture(font, b) {
      SamePixels(font, a, b);
      CellsVisible(font, a, b);
    }
  }
}
