/**
 The worm's heading (the `WORM_DIRECTION` enum) and the three tables the
 worm reads from it: the step it takes, the glyph its head shows, and which
 requested turns are reversals.
 */
module Directions {

  /** The four headings. The enum's backing integers (0, 1, 3, 4) are never read. */
  datatype Direction = Up | Right | Down | Left

  /** The heading that points the other way; a reference table for the reversal test. */
  function Opposite(d: Direction): Direction {
    match d
    case Up => Down
    case Down => Up
    case Left => Right
    case Right => Left
  }

  /** `matchCoordinates`: the (row, column) step of one move. */
  function Delta(d: Direction): (step: (int, int))
    ensures -1 <= step.0 <= 1 && -1 <= step.1 <= 1
    ensures (step.0 == 0) != (step.1 == 0)
  {
    match d
    case Up => (-1, 0)
    case Down => (1, 0)
    case Left => (0, -1)
    case Right => (0, 1)
  }

  /** Opposite headings step in opposite directions. */
  lemma OppositeCancels(d: Direction)
    ensures Delta(Opposite(d)).0 == -Delta(d).0 && Delta(Opposite(d)).1 == -Delta(d).1
    ensures Opposite(Opposite(d)) == d && Opposite(d) != d
  {
  }

  /** `getHeadSym`: the glyph painted on the head cell. It is never one of the
      characters the board uses for blanks, borders, food or the body. */
  function HeadSym(d: Direction): (glyph: char)
    ensures glyph !in " |=XO"
  {
    match d
    case Up => '^'
    case Down => 'v'
    case Left => '<'
    case Right => '>'
  }

  /** Each heading has its own glyph, so the head shows where the worm goes. */
  lemma HeadSymDistinct(a: Direction, b: Direction)
    ensures HeadSym(a) == HeadSym(b) ==> a == b
  {
  }

  /** The pair match of `Worm::changeDirection`: the request is rejected
      exactly when it is the reverse of the current heading. */
  function IsReversal(requested: Direction, current: Direction): (reversal: bool)
    ensures reversal <==> requested == Opposite(current)
  {
    match (requested, current)
    case (Left, Right) => true
    case (Right, Left) => true
    case (Up, Down) => true
    case (Down, Up) => true
    case _ => false
  }

  /** The heading after a requested turn. */
  function Turned(current: Direction, requested: Direction): (next: Direction)
    ensures next != Opposite(current)
    ensures requested != Opposite(current) ==> next == requested
    ensures requested == Opposite(current) ==> next == current
  {
    if IsReversal(requested, current) then current else requested
  }

  /** Pressing left and then right: the second request is the reverse of the
      first once the first was adopted, so it is rejected. */
  lemma LeftThenRight(d: Direction)
    ensures Turned(Turned(d, Left), Right) == if d == Right then Right else Left
  {
  }
}
