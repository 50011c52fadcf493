# Worm game engine, modelled in Dafny

This project models the game engine of a terminal snake game (`index.php`).
A worm moves one cell per frame over a 32 x 80 torus. It grows by one when its
head lands on the food marker `'X'`, and it steers with the keys
`h j k l`. The screen buffer is a list of text rows. It is both the world the
worm lives in and the frame that is printed. A help overlay can be
shown over the buffer and taken away again, using a stack of saved buffers.

Files and modules:

- `board.dfy`, module `Board`: the buffer (`Grid = seq<string>`, rows may differ
  in length), cells, one-cell writes, the cleared buffer of `clearScreenBuffer`,
  the help overlay, and the score line of `render` with its decimal number.
- `direction.dfy`, module `Directions`: the `WORM_DIRECTION` enum, its step
  table (`matchCoordinates`), its head glyphs (`getHeadSym`) and the reversal test
  of `changeDirection`.
- `worm.dfy`, module `Worms`: class `Worm` with its fields
  `headRow`, `headCol`, `length`, `movingDirection`, `wormMem` and the remembered
  food (`xRow`/`xCol`, an `Option<Cell>` that is `None` until food is first
  placed). `ShowX` and `Move` take the buffer and return the new buffer. PHP
  passes the buffer by reference, and PHP arrays are values, so an in/out
  parameter is the same thing. The painting `foreach` of `move` is the loop of
  `PaintWorm`. It is proved against `Painted`, a cell-by-cell description of the
  painted buffer.
- `game.dfy`, module `Game`: class `GameState` with `screenBuffer`, `stack`,
  `worm`, `isGameRunning` and a `quitRequested` flag, the key dispatch and
  `Tick`.

Behaviour reproduced from the code as written:

- PHP's `%` truncates toward zero. `Wrap` writes that out, and a negative
  remainder becomes `n - 1`. For a head on the board this is the usual
  wrap-around. For any start it lands in `[0, n)`.
- The head wraps over columns 0..79. Columns 0 and 1 hold the `||` border, and
  rows 0 and 31 are the borders. The worm can paint over all of them.
- Food is sampled from rows 2..30 and columns 2..78, on any blank cell. `Tick` clears the
  buffer before `Move`, so new food can land on a cell the worm's body covers.
- After a clear, the top row has 82 `=` and the bottom row has 84. `Render` always
  rewrites the top row to 84 characters (`Score: n` then `=`).
- `Reset` pushes the cleared buffer when it shows the help screen, and then
  empties the stack. So `b` right after start clears the buffer.
- The body list is `[newHead] + oldList` cut to `length` entries, so
  `|wormMem| == length` does not hold after every move. A worm starts with an
  empty list. The list then lags the length by one entry after a move exactly
  when it lagged before and the worm ate. So it lags after the first move of
  a new length-1 worm that eats (`EatingMoveLags`), and after each eat that
  directly follows. Once it has caught up it keeps up on every move, eating
  or not (`BodyListLag`). The game keeps `length - 1 <= |wormMem| <= length`
  (`GameState.Valid`).

## Model

| member | source | states |
|---|---|---|
| `Board.Mark` | index.php:77 | writing one character keeps every row's length |
| `Board.MarkCells` | index.php:77 | a write sets the named cell and leaves every other cell as it was |
| `Board.Repeat` | index.php:142-144 | `str_repeat(ch, n)` is `n` characters, all `ch` |
| `Board.ClearedGrid` | index.php:140-145 | 32 rows; row 0 is 82 `=`, row 31 is 84 `=`, every other row is `||`, 80 blanks, `||`; the worm's whole torus lies inside it |
| `Board.ClearedCells` | index.php:142 | every interior row has 84 characters: bars in columns 0, 1, 82 and 83, and blanks in columns 2..81 |
| `Board.HelpScreen` | index.php:162-165 | the first 24 rows of the buffer (fewer if it is shorter) followed by the 8 help lines; 32 rows for a 32-row buffer |
| `Board.Decimal` | index.php:206 | `%d` of a non-negative number: at least one digit, all digits, no leading zero; 0 is written `0` |
| `Board.DecimalRoundTrip` | index.php:206 | the decimal text reads back as the same number |
| `Board.ScoreLine` | index.php:206-207 | the top row is `Score: n` followed by `=` up to 84 characters |
| `Board.ScoreLineRoundTrip` | index.php:206-207 | the score read back from the top row is the worm's length |
| `Directions.Delta` | index.php:29-37 | each heading steps one cell along exactly one axis |
| `Directions.OppositeCancels` | index.php:29-37 | opposite headings take opposite steps; the opposite of the opposite is the heading |
| `Directions.HeadSym` | index.php:39-47 | the head glyph is never a blank, border, food or body character |
| `Directions.HeadSymDistinct` | index.php:39-47 | different headings show different glyphs |
| `Directions.IsReversal` | index.php:55-60 | the four rejected pairs are exactly a request for the opposite of the current heading |
| `Directions.Turned` | index.php:53-63 | the new heading is never the reverse of the old; every other request, the same heading or a perpendicular one, is adopted; a reversal leaves the heading unchanged |
| `Directions.LeftThenRight` | index.php:53-63 | `h` then `l` ends heading left unless the worm was heading right |
| `Worms.TruncRem` | index.php:88 | PHP's remainder: magnitude below `n`; for a non-negative dividend the Euclidean remainder, for a negative one that remainder minus `n`, or 0 when it is 0 |
| `Worms.Wrap` | index.php:88-91 | the new coordinate is always in `[0, n)`; from a coordinate on the board it is `(pos + delta) mod n` |
| `Worms.WrapEdges` | index.php:88-91 | up from row 0 gives 31, down from 31 gives 0, left from column 0 gives 79, right from 79 gives 0 |
| `Worms.ClearedRoom` | index.php:72-82 | a cleared buffer has two blank cells in the sampling range, so sampling ends |
| `Worms.RoomAfterMark` | index.php:93-96 | after one cell is written, a blank cell remains for the second placement of an eating move |
| `Worms.BodyList` | index.php:98-99 | the new list has `min(length, old + 1)` entries, starts with the new head, and the rest is a prefix of the old list |
| `Worms.BodyListLag` | index.php:93-99 | the list lags the length by at most one after a move; a caught-up list stays caught up, eating or not; it lags after a move exactly when it lagged before and the worm ate |
| `Worms.BodyListOnBoard` | index.php:98-99 | the body list holds only cells of the board |
| `Worms.EatingMoveLags` | index.php:93-99 | a length-1 worm that eats on its first move has a one-entry list and length 2 |
| `Worms.PaintedCells` | index.php:100-106 | after painting, every body cell after the first shows `O`; the head shows its glyph unless a later body cell covers it; other cells are unchanged |
| `Worms.PaintStep` | index.php:100-106 | painting one more list entry is one more cell write: the glyph for entry 0, `O` for later ones |
| `Worms.PaintWorm` | index.php:100-106 | the `foreach` loop produces exactly the painted buffer |
| `Worms.Worm.constructor` | index.php:22-27 | the worm starts at the given cell and length, heading right, with an empty list and no food |
| `Worms.Worm.ChangeDirection` | index.php:53-63 | the heading becomes the turned heading and is never the reverse of the old one |
| `Worms.Worm.ShowX` | index.php:65-83 | exactly one blank cell becomes `X` and is remembered; it is the remembered cell, unchanged, when that is still blank, else a cell of rows 2..30 and columns 2..78 |
| `Worms.Worm.StepAndEat` | index.php:86-96 | food is placed, the head wraps, and the length grows by one and food is placed again exactly when the new head cell holds `X` |
| `Worms.Worm.Move` | index.php:85-107 | head in bounds after wrapping, length unchanged or one more, the body list is the cut list, and the buffer is the food step followed by the painting |
| `Worms.FirstMove` | index.php:85-107 | from (30, 30) heading right on a cleared buffer the head goes to (30, 31), the list is that cell, and the length is 2 only if the food was placed on that cell |
| `Game.KeyCommand` | index.php:188-202 | exactly `h j k l` steer, `h` to Left, `j` to Up, `k` to Down, `l` to Right; `?` is help, `q` quit, `b` back, `c` clean, each exactly; every key other than the eight is ignored |
| `Game.SteerKeysRoundTrip` | index.php:196-199 | each heading's key maps back to that heading |
| `Game.GameState.constructor` | index.php:127-130 | a new game shows help over a cleared buffer, has an empty stack, is paused, and has a length-1 worm at (30, 30) |
| `Game.GameState.Reset` | index.php:132-138 | the same state, from any state, with a fresh worm |
| `Game.GameState.ClearScreenBuffer` | index.php:140-145 | the buffer becomes the cleared buffer |
| `Game.GameState.RenderHelperScreen` | index.php:147-166 | pauses, pushes the old buffer, and shows help over it |
| `Game.GameState.ChangeDirection` | index.php:168-177 | while paused: starts, clears and places food; while running: buffer and food untouched; the worm's heading turns in both cases |
| `Game.GameState.Back` | index.php:179-186 | pops the top saved buffer into the screen, or clears when the stack is empty; the running flag is untouched |
| `Game.GameState.Quit` | index.php:225-229 | the quit request is recorded |
| `Game.GameState.PressKey` | index.php:188-202 | each key has its action's effect and no other; unknown keys change nothing |
| `Game.GameState.Render` | index.php:204-207 | only the top row changes, to the score line |
| `Game.GameState.Tick` | index.php:213-218 | paused: the worm does not move; running: the worm moves on a cleared buffer; the score line is written either way |
| `Game.HelpThenBack` | index.php:188-193 | `?` then `b` restores the buffer and the stack, leaves the game paused, and leaves the worm and the quit flag untouched |

## Left out

- The driver loop, `stty`, non-blocking `fgets`, `feof` and `system('clear')` (index.php:232-246) are terminal input and output. A key is a string, and "no input" is any string other than the eight keys.
- The `printf` of the frame and of the head coordinates, and the `usleep` in `tick`, are output and timing only. `Render` keeps only the rewrite of the top row.
- `Game.GameState.Quit`: the farewell `echo` and `exit(0)` end the process. The model only sets `quitRequested`, and no operation reads it.
- `Worms.Worm.ShowX`: `rand` and the unbounded retry loop are replaced by a choice of any blank cell in the sampling range. The distribution is not modelled. The non-termination on a buffer with no such cell is excluded by the precondition.
- `Worms.Worm.Move`: requires two blank cells in the sampling range, even on paths where the PHP code samples once or not at all. An eating move can sample twice. Every caller passes a cleared buffer.
- `Worms.Worm.Move`: requires a buffer of 32 rows, each at least 80 characters long. PHP would extend short rows or missing rows when writing. Every caller passes a cleared buffer.
- `Worms.Worm.constructor`: the length has no default. PHP's `__construct` defaults it to 5 (index.php:22), but the game always passes a length of 1. The length is a natural number. A negative length would make `array_slice` count from the end.
- `Worms.Worm.Move`: the length is an unbounded natural number. In PHP, `length` is a typed `int` property (index.php:15). `$this->length++` at PHP_INT_MAX (2^63 - 1) leaves the integer range, and the property rejects the result. The model does not represent this limit.
- `Board.ScoreLine`: requires the score text to fit in 84 characters. That holds for every length the 64-bit `length` property can hold (19 digits at most). `str_repeat` would throw on a negative count only for a score of 78 digits or more, which PHP cannot reach. `Game.GameState.Render` and `Game.GameState.Tick` carry the same requirement.
- The enum's backing integers (0, 1, 3, 4) are never read, so `Direction` has no integer values.
- The help text is modelled as its eight lines; nothing depends on their content.
