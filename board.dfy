/**
 The screen buffer of the worm game: a list of text rows that is both the
 world the worm lives in and the frame that is printed. This module holds the
 board's dimensions, its cells, the freshly cleared board, the help overlay
 and the score line that replaces the top border.
 */
module Board {

  /** Number of rows of the screen buffer (GameState::SCREEN_HEIGHT). */
  const Height := 32
  /** Number of columns the worm moves over (GameState::SCREEN_WIDTH). */
  const Width := 80

  /** The screen buffer. Rows are ragged: the top border, the bottom border,
      the interior rows and the help lines need not have the same length. */
  type Grid = seq<string>

  datatype Option<T> = None | Some(value: T)

  /** A (row, column) position; the worm's body list and its food use it. */
  datatype Cell = Cell(row: int, col: int)

  function Min(a: int, b: int): int {
    if a < b then a else b
  }

  /** The cell exists in the buffer (PHP's `isset` on a row and a string offset). */
  predicate InGrid(g: Grid, cell: Cell) {
    0 <= cell.row < |g| && 0 <= cell.col < |g[cell.row]|
  }

  predicate SameShape(g: Grid, h: Grid) {
    |g| == |h| && forall r :: 0 <= r < |g| ==> |g[r]| == |h[r]|
  }

  /** A buffer the worm can be moved on: every position of the 32 x 80 torus is a cell of it. */
  predicate Playable(g: Grid) {
    |g| == Height && forall r :: 0 <= r < |g| ==> |g[r]| >= Width
  }

  /** Writes one character into the buffer, `$screenBuffer[$row][$col] = ch`. */
  function Mark(g: Grid, cell: Cell, ch: char): (g': Grid)
    requires InGrid(g, cell)
    ensures SameShape(g, g')
  {
    g[cell.row := g[cell.row][cell.col := ch]]
  }

  /** A write changes the one cell it names and no other. */
  lemma MarkCells(g: Grid, cell: Cell, ch: char)
    requires InGrid(g, cell)
    ensures Mark(g, cell, ch)[cell.row][cell.col] == ch
    ensures forall r, c :: 0 <= r < |g| && 0 <= c < |g[r]| && Cell(r, c) != cell ==> Mark(g, cell, ch)[r][c] == g[r][c]
  {
  }

  /** `str_repeat(ch, n)`. */
  function Repeat(ch: char, n: nat): (s: string)
    ensures |s| == n
    ensures forall i :: 0 <= i < n ==> s[i] == ch
  {
    seq(n, _ => ch)
  }

  /** An interior row: two bars, `Width` blanks, two bars. */
  function BlankRow(): string {
    "||" + Repeat(' ', Width) + "||"
  }

  /** The buffer built by `clearScreenBuffer`: a top border of `Width + 2` equals
      signs, a bottom border of `Width + 4`, and barred blank rows between. */
  function ClearedGrid(): (g: Grid)
    ensures |g| == Height
    ensures g[0] == Repeat('=', Width + 2)
    ensures g[Height - 1] == Repeat('=', Width + 4)
    ensures forall r :: 0 < r < Height - 1 ==> g[r] == BlankRow()
    ensures Playable(g)
  {
    var g := seq(Height, r => if r == 0 then Repeat('=', Width + 2)
                              else if r == Height - 1 then Repeat('=', Width + 4)
                              else BlankRow());
    assert g[0] == Repeat('=', Width + 2);
    assert g[Height - 1] == Repeat('=', Width + 4);
    assert forall r :: 0 < r < Height - 1 ==> g[r] == BlankRow();
    g
  }

  /** Every interior row is 84 characters: two bars, 80 blanks, two bars. */
  lemma ClearedCells()
    ensures forall r :: 0 < r < Height - 1 ==> |ClearedGrid()[r]| == Width + 4
    ensures forall r, c :: 0 < r < Height - 1 && 0 <= c < Width + 4 ==>
              ClearedGrid()[r][c] == (if c < 2 || Width + 2 <= c then '|' else ' ')
  {
    var row := BlankRow();
    assert forall c :: 2 <= c < Width + 2 ==> row[c] == Repeat(' ', Width)[c - 2];
  }

  /** The eight lines of instructions that the help overlay shows. */
  const HelpLines: seq<string> := [
    "How to play:",
    "  Moving the snack around with keys: ",
    "    (h): Left    (l): Right    (j) Up    (k) Down",
    "  To start the game press any key above.",
    "Press (?) for showing help.",
    "Press (b) to go gack.",
    "Press (c) to clean screen.",
    "(q) for quit."
  ]

  /** The buffer after `renderHelperScreen`: the first `Height - 8` rows of the
      current buffer (fewer if it is shorter) followed by the help lines. */
  function HelpScreen(g: Grid): (h: Grid)
    ensures |h| == Min(|g|, Height - |HelpLines|) + |HelpLines|
    ensures |g| >= Height - |HelpLines| ==> |h| == Height
    ensures forall i :: 0 <= i < Min(|g|, Height - |HelpLines|) ==> h[i] == g[i]
    ensures h[|h| - |HelpLines|..] == HelpLines
  {
    g[..Min(|g|, Height - |HelpLines|)] + HelpLines
  }

  predicate IsDigit(ch: char) {
    '0' <= ch <= '9'
  }

  function DigitChar(d: nat): (ch: char)
    requires d < 10
    ensures IsDigit(ch)
  {
    (d + '0' as int) as char
  }

  function DigitValue(ch: char): (d: nat)
    requires IsDigit(ch)
    ensures d < 10 && DigitChar(d) == ch
  {
    ch as int - '0' as int
  }

  /** `sprintf('%d', n)` for the non-negative numbers the score takes. */
  function Decimal(n: nat): (s: string)
    ensures |s| >= 1
    ensures forall i :: 0 <= i < |s| ==> IsDigit(s[i])
    ensures s[0] == '0' ==> n == 0 && s == "0"
  {
    if n < 10 then [DigitChar(n)] else Decimal(n / 10) + [DigitChar(n % 10)]
  }

  /** The value of a string of decimal digits; the inverse of `Decimal`. */
  function ParseDecimal(s: string): nat
    requires forall i :: 0 <= i < |s| ==> IsDigit(s[i])
  {
    if s == [] then 0 else ParseDecimal(s[..|s| - 1]) * 10 + DigitValue(s[|s| - 1])
  }

  lemma {:induction false} DecimalRoundTrip(n: nat)
    ensures ParseDecimal(Decimal(n)) == n
  {
    if n >= 10 {
      DecimalRoundTrip(n / 10);
      var s := Decimal(n);
      assert s[..|s| - 1] == Decimal(n / 10);
    }
  }

  const ScorePrefix := "Score: "

  /** `sprintf('Score: %d', n)`. */
  function ScoreText(n: nat): string {
    ScorePrefix + Decimal(n)
  }

  /** The score text is no wider than the score line, so that the count given
      to `str_repeat` is not negative. */
  predicate ScoreFits(n: nat) {
    |ScoreText(n)| <= Width + 4
  }

  /** The top row as `render` rewrites it: the score text padded with equals
      signs to `Width + 4` characters. */
  function ScoreLine(n: nat): (line: string)
    requires ScoreFits(n)
    ensures |line| == Width + 4
    ensures line[..|ScoreText(n)|] == ScoreText(n)
    ensures forall i :: |ScoreText(n)| <= i < |line| ==> line[i] == '='
  {
    ScoreText(n) + Repeat('=', Width + 4 - |ScoreText(n)|)
  }

  /** Length of the run of digits at the start of `s`. */
  function DigitRun(s: string): (k: nat)
    ensures k <= |s|
    ensures forall i :: 0 <= i < k ==> IsDigit(s[i])
    ensures k < |s| ==> !IsDigit(s[k])
  {
    if |s| == 0 || !IsDigit(s[0]) then 0 else 1 + DigitRun(s[1..])
  }

  /** Reads the score back from a top row: the prefix, then the digits. */
  function ReadScore(line: string): Option<nat> {
    if |line| < |ScorePrefix| || line[..|ScorePrefix|] != ScorePrefix then None
    else
      var rest := line[|ScorePrefix|..];
      var k := DigitRun(rest);
      if k == 0 then None else Some(ParseDecimal(rest[..k]))
  }

  /** The score line shows exactly the score it was built from. */
  lemma ScoreLineRoundTrip(n: nat)
    requires ScoreFits(n)
    ensures ReadScore(ScoreLine(n)) == Some(n)
  {
    var line := ScoreLine(n);
    var digits := Decimal(n);
    var rest := line[|ScorePrefix|..];
    assert line[..|ScorePrefix|] == ScorePrefix;
    assert rest[..|digits|] == digits;
    assert |digits| < |rest| ==> rest[|digits|] == '=';
    assert DigitRun(rest) == |digits|;
    DecimalRoundTrip(n);
  }
}
