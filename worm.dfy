/**
 The worm: its head position on a Height x Width torus, its length, its
 heading, the head-first list of the cells it occupies and the remembered
 food cell. The screen buffer is passed in and handed back (PHP passes it by
 reference), and the worm paints itself and its food into it.
 */
module Worms {
  import opened Board
  import opened Directions

  /** The remainder is determined by any quotient that leaves it in `[0, n)`. */
  lemma ModUnique(a: int, n: int, q: int, r: int)
    requires n > 0 && 0 <= r < n && a == q * n + r
    ensures a % n == r
  {
    var q0, r0 := a / n, a % n;
    assert (q - q0) * n == r0 - r;
    if q > q0 {
      MulAtLeast(q - q0, n);
    } else if q < q0 {
      MulAtLeast(q0 - q, n);
    }
  }

  lemma MulAtLeast(x: int, n: int)
    requires x >= 1 && n > 0
    ensures x * n >= n
  {
  }

  /** PHP's `%`: the remainder takes the sign of the dividend. For a negative
      dividend it is the Euclidean remainder shifted down by `n`, or 0. */
  function TruncRem(a: int, n: int): (r: int)
    requires n > 0
    ensures -n < r < n
    ensures a >= 0 ==> r == a % n
    ensures a < 0 ==> r == (if a % n == 0 then 0 else a % n - n)
  {
    if a >= 0 then a % n
    else
      var q, s := (-a) / n, (-a) % n;
      if s == 0 then
        ModUnique(a, n, -q, 0);
        0
      else
        ModUnique(a, n, -q - 1, n - s);
        -s
  }

  /** One coordinate of the head after a step: `(pos + delta) % n`, and `n - 1`
      when that remainder is negative. */
  function Wrap(pos: int, delta: int, n: int): (r: int)
    requires n > 0
    ensures 0 <= r < n
    ensures 0 <= pos < n && -1 <= delta <= 1 ==> r == (pos + delta) % n
  {
    var m := TruncRem(pos + delta, n);
    if m < 0 then n - 1 else m
  }

  /** Stepping off an edge re-enters at the opposite edge. */
  lemma WrapEdges()
    ensures Wrap(0, Delta(Up).0, Height) == Height - 1 && Wrap(Height - 1, Delta(Down).0, Height) == 0
    ensures Wrap(0, Delta(Left).1, Width) == Width - 1 && Wrap(Width - 1, Delta(Right).1, Width) == 0
  {
  }

  predicate OnBoard(cell: Cell) {
    0 <= cell.row < Height && 0 <= cell.col < Width
  }

  /** The rows and columns `showX` samples new food from: `rand(2, Height - 2)`
      and `rand(2, Width - 2)`. */
  predicate InSpawnRange(r: int, c: int) {
    2 <= r <= Height - 2 && 2 <= c <= Width - 2
  }

  /** The cell exists and holds a blank. */
  predicate Blank(g: Grid, r: int, c: int) {
    0 <= r < |g| && 0 <= c < |g[r]| && g[r][c] == ' '
  }

  /** The remembered food cell is set and still blank, so `showX` re-marks it. */
  predicate Remembered(g: Grid, food: Option<Cell>) {
    food.Some? && Blank(g, food.value.row, food.value.col)
  }

  /** Some blank cell lies in the sampling range, so rejection sampling ends. */
  ghost predicate HasRoom(g: Grid) {
    exists r, c :: InSpawnRange(r, c) && Blank(g, r, c)
  }

  /** Two distinct blank cells lie in the sampling range: enough for the two
      placements a move can make. */
  ghost predicate RoomForTwo(g: Grid) {
    exists r1, c1, r2, c2 ::
      (r1 != r2 || c1 != c2) && InSpawnRange(r1, c1) && InSpawnRange(r2, c2) && Blank(g, r1, c1) && Blank(g, r2, c2)
  }

  /** What `showX` does to the buffer `g` and the remembered food `f`: exactly
      one blank cell becomes 'X' and becomes the remembered food; it is the
      remembered cell when that is still blank, and otherwise a cell of the
      sampling range. */
  predicate FoodPlaced(g: Grid, f: Option<Cell>, g': Grid, f': Option<Cell>) {
    && f'.Some?
    && Blank(g, f'.value.row, f'.value.col)
    && g' == Mark(g, f'.value, 'X')
    && if Remembered(g, f) then f' == f else InSpawnRange(f'.value.row, f'.value.col)
  }

  /** The freshly cleared buffer has room for two placements. */
  lemma ClearedRoom()
    ensures RoomForTwo(ClearedGrid()) && HasRoom(ClearedGrid())
  {
    var g := ClearedGrid();
    ClearedCells();
    assert Blank(g, 2, 2) && Blank(g, 2, 3);
  }

  /** After one cell is written, one of two blank cells is still blank. */
  lemma RoomAfterMark(g: Grid, cell: Cell, ch: char)
    requires RoomForTwo(g) && InGrid(g, cell)
    ensures HasRoom(Mark(g, cell, ch))
  {
    var r1, c1, r2, c2 :| (r1 != r2 || c1 != c2) && InSpawnRange(r1, c1) && InSpawnRange(r2, c2)
                          && Blank(g, r1, c1) && Blank(g, r2, c2);
    MarkCells(g, cell, ch);
    if Cell(r1, c1) != cell {
      assert Blank(Mark(g, cell, ch), r1, c1);
    } else {
      assert Blank(Mark(g, cell, ch), r2, c2);
    }
  }

  /** `array_unshift` of the new head followed by `array_slice(.., 0, len)`. */
  function BodyList(head: Cell, mem: seq<Cell>, len: nat): (body: seq<Cell>)
    ensures |body| == Min(len, |mem| + 1)
    ensures |body| > 0 ==> body[0] == head && body[1..] == mem[..|body| - 1]
  {
    var full := [head] + mem;
    full[..Min(len, |full|)]
  }

  /** The list lags the length by at most one entry. Once it has caught up with
      the length it keeps up on every move, eating or not; it lags after a move
      exactly when it lagged before and the worm ate. */
  lemma BodyListLag(head: Cell, mem: seq<Cell>, len: nat, len': nat)
    requires len <= |mem| + 1 && (len' == len || len' == len + 1)
    ensures len' <= |BodyList(head, mem, len')| + 1
    ensures |mem| >= len ==> |BodyList(head, mem, len')| == len'
    ensures |BodyList(head, mem, len')| < len' <==> |mem| < len && len' == len + 1
  {
  }

  /** The body list only holds head positions, so it stays on the board. */
  lemma BodyListOnBoard(head: Cell, mem: seq<Cell>, len: nat)
    requires OnBoard(head) && forall i :: 0 <= i < |mem| ==> OnBoard(mem[i])
    ensures forall i :: 0 <= i < |BodyList(head, mem, len)| ==> OnBoard(BodyList(head, mem, len)[i])
  {
    var body := BodyList(head, mem, len);
    forall i | 1 <= i < |body| ensures OnBoard(body[i]) {
      assert body[i] == body[1..][i - 1] == mem[i - 1];
    }
  }

  lemma SameShapeTrans(a: Grid, b: Grid, c: Grid)
    requires SameShape(a, b) && SameShape(b, c)
    ensures SameShape(a, c)
  {
  }

  /** Every cell of the board is a cell of a playable buffer. */
  lemma OnBoardInGrid(g: Grid, cells: seq<Cell>)
    requires Playable(g) && forall i :: 0 <= i < |cells| ==> OnBoard(cells[i])
    ensures forall i :: 0 <= i < |cells| ==> InGrid(g, cells[i])
  {
  }

  /** The worm that starts at length 1 eats on its first move: its body list
      then has one entry while its length is 2. */
  lemma EatingMoveLags()
    ensures |BodyList(Cell(30, 31), [], 2)| == 1
  {
  }

  /** The character the painting loop leaves at (r, c): 'O' if the cell is a
      later body entry, the head glyph if it is only the head, else unchanged. */
  function PaintedAt(g: Grid, mem: seq<Cell>, glyph: char, r: int, c: int): char
    requires 0 <= r < |g| && 0 <= c < |g[r]|
  {
    if |mem| > 0 && Cell(r, c) in mem[1..] then 'O'
    else if |mem| > 0 && mem[0] == Cell(r, c) then glyph
    else g[r][c]
  }

  /** The buffer after the painting loop of `move`, described cell by cell. */
  function Painted(g: Grid, mem: seq<Cell>, glyph: char): (p: Grid)
    ensures SameShape(g, p)
  {
    seq(|g|, r requires 0 <= r < |g| => seq(|g[r]|, c requires 0 <= c < |g[r]| => PaintedAt(g, mem, glyph, r, c)))
  }

  lemma PaintedPointwise(g: Grid, mem: seq<Cell>, glyph: char)
    ensures forall r, c :: 0 <= r < |g| && 0 <= c < |g[r]| ==> Painted(g, mem, glyph)[r][c] == PaintedAt(g, mem, glyph, r, c)
  {
  }

  /** After painting, every body cell after the first shows 'O', the head shows
      the glyph unless a later body cell covers it, and nothing else changed. */
  lemma PaintedCells(g: Grid, mem: seq<Cell>, glyph: char)
    requires forall i :: 0 <= i < |mem| ==> InGrid(g, mem[i])
    ensures SameShape(g, Painted(g, mem, glyph))
    ensures forall i :: 1 <= i < |mem| ==> InGrid(g, mem[i]) && Painted(g, mem, glyph)[mem[i].row][mem[i].col] == 'O'
    ensures |mem| > 0 && mem[0] !in mem[1..] ==> InGrid(g, mem[0]) && Painted(g, mem, glyph)[mem[0].row][mem[0].col] == glyph
    ensures forall r, c :: 0 <= r < |g| && 0 <= c < |g[r]| && Cell(r, c) !in mem ==> Painted(g, mem, glyph)[r][c] == g[r][c]
  {
    var p := Painted(g, mem, glyph);
    PaintedPointwise(g, mem, glyph);
    forall i | 1 <= i < |mem| ensures p[mem[i].row][mem[i].col] == 'O' {
      assert mem[i] == mem[1..][i - 1];
    }
  }

  lemma PaintedNothing(g: Grid, glyph: char)
    ensures Painted(g, [], glyph) == g
  {
    var p := Painted(g, [], glyph);
    PaintedPointwise(g, [], glyph);
    forall r | 0 <= r < |g| ensures p[r] == g[r] {
      assert |p[r]| == |g[r]|;
    }
  }

  /** Painting one more entry of the list is one more cell write. */
  lemma PaintStep(g: Grid, mem: seq<Cell>, k: nat, glyph: char)
    requires k < |mem| && forall i :: 0 <= i < |mem| ==> InGrid(g, mem[i])
    ensures InGrid(Painted(g, mem[..k], glyph), mem[k])
    ensures Painted(g, mem[..k + 1], glyph) == Mark(Painted(g, mem[..k], glyph), mem[k], if k == 0 then glyph else 'O')
  {
    var before := Painted(g, mem[..k], glyph);
    var after := Painted(g, mem[..k + 1], glyph);
    var marked := Mark(before, mem[k], if k == 0 then glyph else 'O');
    PaintedPointwise(g, mem[..k], glyph);
    PaintedPointwise(g, mem[..k + 1], glyph);
    MarkCells(before, mem[k], if k == 0 then glyph else 'O');
    if k > 0 {
      assert mem[..k + 1][1..] == mem[..k][1..] + [mem[k]];
    }
    forall r | 0 <= r < |g| ensures after[r] == marked[r] {
      forall c | 0 <= c < |g[r]| ensures after[r][c] == marked[r][c] {
      }
    }
  }

  /** The `foreach` of `move`: the head glyph on the first entry, 'O' on every
      later one, written in list order. */
  method PaintWorm(g: Grid, mem: seq<Cell>, glyph: char) returns (g': Grid)
    requires forall i :: 0 <= i < |mem| ==> InGrid(g, mem[i])
    ensures g' == Painted(g, mem, glyph)
    ensures SameShape(g, g')
  {
    PaintedNothing(g, glyph);
    g' := g;
    var k := 0;
    while k < |mem|
      invariant k <= |mem|
      invariant g' == Painted(g, mem[..k], glyph)
    {
      PaintStep(g, mem, k, glyph);
      g' := Mark(g', mem[k], if k == 0 then glyph else 'O');
      k := k + 1;
    }
    assert mem[..k] == mem;
  }

  /** The food side of one move: `showX` places food in `g`; if the new head
      then stands on an 'X' the length grows by one and `showX` runs again. */
  ghost predicate Fed(g: Grid, f: Option<Cell>, head: Cell, len: nat, g2: Grid, f2: Option<Cell>, len2: nat) {
    exists g1, f1 ::
      && FoodPlaced(g, f, g1, f1)
      && InGrid(g1, head)
      && if g1[head.row][head.col] == 'X' then len2 == len + 1 && FoodPlaced(g1, f1, g2, f2)
         else len2 == len && g2 == g1 && f2 == f1
  }

  class Worm {
    var headRow: int
    var headCol: int
    var length: nat
    var movingDirection: Direction
    var wormMem: seq<Cell>
    var food: Option<Cell>

    /** The body list is no longer than the length and lies on the board. */
    ghost predicate Valid()
      reads this
    {
      |wormMem| <= length && forall i :: 0 <= i < |wormMem| ==> OnBoard(wormMem[i])
    }

    constructor (row: int, col: int, len: nat)
      ensures Valid()
      ensures headRow == row && headCol == col && length == len
      ensures movingDirection == Right && wormMem == [] && food == None
    {
      headRow, headCol, length := row, col, len;
      movingDirection := Right;
      wormMem := [];
      food := None;
    }

    /** Adopts the requested heading unless it is the reverse of the current one. */
    method ChangeDirection(d: Direction)
      modifies this`movingDirection
      ensures movingDirection == Turned(old(movingDirection), d)
      ensures movingDirection != Opposite(old(movingDirection))
    {
      movingDirection := Turned(movingDirection, d);
    }

    /** `showX`: re-marks the remembered food cell if it is still blank, else
        picks any blank cell of the sampling range (the PHP code draws random
        cells until one is blank), marks it and remembers it. */
    method ShowX(g: Grid) returns (g': Grid)
      requires Playable(g) && (Remembered(g, food) || HasRoom(g))
      modifies this`food
      ensures FoodPlaced(g, old(food), g', food)
      ensures Remembered(g, old(food)) ==> food == old(food)
      ensures SameShape(g, g') && Playable(g')
    {
      if Remembered(g, food) {
        g' := Mark(g, food.value, 'X');
        return;
      }
      var r: int, c: int :| InSpawnRange(r, c) && Blank(g, r, c);
      g' := Mark(g, Cell(r, c), 'X');
      food := Some(Cell(r, c));
    }

    /** The first half of `move`: places food, steps the head with
        wrap-around, and on landing on an 'X' grows by one and places the
        next food. */
    method StepAndEat(g: Grid) returns (g2: Grid)
      requires Playable(g) && RoomForTwo(g)
      modifies this`headRow, this`headCol, this`length, this`food
      ensures Playable(g2) && SameShape(g, g2)
      ensures headRow == Wrap(old(headRow), Delta(movingDirection).0, Height)
      ensures headCol == Wrap(old(headCol), Delta(movingDirection).1, Width)
      ensures Fed(g, old(food), Cell(headRow, headCol), old(length), g2, food, length)
    {
      ghost var f0 := food;
      var g1 := ShowX(g);
      ghost var f1 := food;
      var (dr, dc) := Delta(movingDirection);
      headRow := Wrap(headRow, dr, Height);
      headCol := Wrap(headCol, dc, Width);
      g2 := g1;
      if g1[headRow][headCol] == 'X' {
        length := length + 1;
        RoomAfterMark(g, f1.value, 'X');
        g2 := ShowX(g1);
        SameShapeTrans(g, g1, g2);
      }
      assert FoodPlaced(g, f0, g1, f1);
    }

    /** `move`: the step above, then the new head pushed onto the body list,
        the list cut to the length, and the worm painted. */
    method Move(g: Grid) returns (g': Grid)
      requires Valid() && Playable(g) && RoomForTwo(g)
      modifies this`headRow, this`headCol, this`length, this`wormMem, this`food
      ensures Valid() && Playable(g') && SameShape(g, g')
      ensures headRow == Wrap(old(headRow), Delta(movingDirection).0, Height)
      ensures headCol == Wrap(old(headCol), Delta(movingDirection).1, Width)
      ensures length == old(length) || length == old(length) + 1
      ensures wormMem == BodyList(Cell(headRow, headCol), old(wormMem), length)
      ensures exists g2 :: Fed(g, old(food), Cell(headRow, headCol), old(length), g2, food, length)
                           && g' == Painted(g2, wormMem, HeadSym(movingDirection))
    {
      var g2 := StepAndEat(g);
      var head := Cell(headRow, headCol);
      BodyListOnBoard(head, wormMem, length);
      wormMem := BodyList(head, wormMem, length);
      OnBoardInGrid(g2, wormMem);
      g' := PaintWorm(g2, wormMem, HeadSym(movingDirection));
      SameShapeTrans(g, g2, g');
    }
  }

  /** The coordinate and list arithmetic behind `FirstMove`, kept apart from
      the buffer so that its proof stays small. */
  lemma FirstStep(len: nat)
    requires len >= 1
    ensures Wrap(30, Delta(Right).0, Height) == 30 && Wrap(30, Delta(Right).1, Width) == 31
    ensures BodyList(Cell(30, 31), [], len) == [Cell(30, 31)]
  {
  }

  /** A new worm at (30, 30) heading right, moved once on a cleared buffer:
      the head is at (30, 31), the body list is that one cell, and the length
      is 1, or 2 if the food was placed on that cell. */
  method FirstMove() returns (w: Worm, g: Grid)
    ensures w.headRow == 30 && w.headCol == 31 && w.wormMem == [Cell(30, 31)]
    ensures w.length == 1 || w.length == 2
    ensures exists g2 :: Fed(ClearedGrid(), None, Cell(30, 31), 1, g2, w.food, w.length)
  {
    w := new Worm(30, 30, 1);
    ClearedRoom();
    g := w.Move(ClearedGrid());
    FirstStep(w.length);
  }
}
