/**
 The game object: the screen buffer, a stack of saved buffers for the help
 overlay, the worm and the running/paused flag; the key dispatch and the
 per-frame tick.
 */
module Game {
  import opened Board
  import opened Directions
  import opened Worms

  /** What a key press asks for. */
  datatype Command = ShowHelp | Exit | GoBack | Clean | Steer(heading: Direction) | Ignore

  /** The key that steers the worm in each heading. */
  function SteerKey(d: Direction): string {
    match d
    case Left => "h"
    case Up => "j"
    case Down => "k"
    case Right => "l"
  }

  /** The `match` of `pressKey`. Keys are compared whole, so anything but one
      of the eight one-character keys (a longer read, no input) is ignored. */
  function KeyCommand(key: string): (cmd: Command)
    ensures cmd.Steer? <==> key in {"h", "j", "k", "l"}
    ensures cmd.Steer? ==> key == SteerKey(cmd.heading)
    ensures cmd == ShowHelp <==> key == "?"
    ensures cmd == Exit <==> key == "q"
    ensures cmd == GoBack <==> key == "b"
    ensures cmd == Clean <==> key == "c"
    ensures cmd == Ignore <==> key !in {"?", "q", "b", "c", "h", "j", "k", "l"}
  {
    if key == "?" then ShowHelp
    else if key == "q" then Exit
    else if key == "b" then GoBack
    else if key == "c" then Clean
    else if key == "h" then Steer(Left)
    else if key == "j" then Steer(Up)
    else if key == "k" then Steer(Down)
    else if key == "l" then Steer(Right)
    else Ignore
  }

  /** Every heading has its key. */
  lemma SteerKeysRoundTrip(d: Direction)
    ensures KeyCommand(SteerKey(d)) == Steer(d)
  {
  }

  class GameState {
    var screenBuffer: Grid
    var stack: seq<Grid>
    var worm: Worm
    var isGameRunning: bool
    /** Set by the quit key; the PHP code ends the process there. */
    var quitRequested: bool

    /** Buffers have `Height` rows, the worm is consistent, its length is at
        least one and its body list lags its length by at most one. */
    ghost predicate Valid()
      reads this, worm
    {
      && |screenBuffer| == Height
      && (forall i :: 0 <= i < |stack| ==> |stack[i]| == Height)
      && worm.Valid()
      && 1 <= worm.length <= |worm.wormMem| + 1
    }

    constructor ()
      ensures Valid() && fresh(worm)
      ensures screenBuffer == HelpScreen(ClearedGrid()) && stack == []
      ensures !isGameRunning && !quitRequested
      ensures worm.headRow == 30 && worm.headCol == 30 && worm.length == 1
      ensures worm.movingDirection == Right && worm.wormMem == [] && worm.food == None
    {
      screenBuffer, stack, isGameRunning, quitRequested := [], [], false, false;
      worm := new Worm(30, 30, 1);
      new;
      Reset();
    }

    /** Clears the buffer, shows the help overlay, empties the stack and
        places a new worm of length 1 at (30, 30). */
    method Reset()
      modifies this
      ensures Valid() && fresh(worm)
      ensures screenBuffer == HelpScreen(ClearedGrid()) && stack == []
      ensures !isGameRunning && quitRequested == old(quitRequested)
      ensures worm.headRow == 30 && worm.headCol == 30 && worm.length == 1
      ensures worm.movingDirection == Right && worm.wormMem == [] && worm.food == None
    {
      ClearScreenBuffer();
      RenderHelperScreen();
      stack := [];
      worm := new Worm(30, 30, 1);
    }

    method ClearScreenBuffer()
      modifies this`screenBuffer
      ensures screenBuffer == ClearedGrid()
    {
      screenBuffer := ClearedGrid();
    }

    /** Pauses the game, saves the current buffer and shows the help lines
        over its bottom rows. */
    method RenderHelperScreen()
      modifies this`isGameRunning, this`stack, this`screenBuffer
      ensures !isGameRunning
      ensures stack == old(stack) + [old(screenBuffer)]
      ensures screenBuffer == HelpScreen(old(screenBuffer))
    {
      isGameRunning := false;
      stack := stack + [screenBuffer];
      screenBuffer := HelpScreen(screenBuffer);
    }

    /** The first steering key starts the game on a cleared buffer with food
        placed; every steering key is then passed to the worm. */
    method ChangeDirection(d: Direction)
      requires Valid()
      modifies this`isGameRunning, this`screenBuffer, worm`food, worm`movingDirection
      ensures Valid() && isGameRunning
      ensures worm.movingDirection == Turned(old(worm.movingDirection), d)
      ensures old(isGameRunning) ==> screenBuffer == old(screenBuffer) && worm.food == old(worm.food)
      ensures !old(isGameRunning) ==> FoodPlaced(ClearedGrid(), old(worm.food), screenBuffer, worm.food)
    {
      if !isGameRunning {
        isGameRunning := true;
        ClearScreenBuffer();
        ClearedRoom();
        screenBuffer := worm.ShowX(screenBuffer);
      }
      worm.ChangeDirection(d);
    }

    /** Restores the most recently saved buffer, or clears the buffer when
        nothing is saved. The running flag is left alone. */
    method Back()
      requires Valid()
      modifies this`screenBuffer, this`stack
      ensures Valid()
      ensures |old(stack)| > 0 ==> screenBuffer == old(stack)[|old(stack)| - 1] && stack == old(stack)[..|old(stack)| - 1]
      ensures |old(stack)| == 0 ==> screenBuffer == ClearedGrid() && stack == []
    {
      if |stack| > 0 {
        screenBuffer := stack[|stack| - 1];
        stack := stack[..|stack| - 1];
      } else {
        ClearScreenBuffer();
      }
    }

    method Quit()
      modifies this`quitRequested
      ensures quitRequested
    {
      quitRequested := true;
    }

    /** Dispatches a key: help, quit, back, clean, a steering key, or nothing. */
    method PressKey(key: string)
      requires Valid()
      modifies this`screenBuffer, this`stack, this`isGameRunning, this`quitRequested, worm`food, worm`movingDirection
      ensures Valid()
      ensures KeyCommand(key) == ShowHelp ==>
                && !isGameRunning && stack == old(stack) + [old(screenBuffer)]
                && screenBuffer == HelpScreen(old(screenBuffer))
                && quitRequested == old(quitRequested) && unchanged(worm)
      ensures KeyCommand(key) == Exit ==>
                && quitRequested && screenBuffer == old(screenBuffer) && stack == old(stack)
                && isGameRunning == old(isGameRunning) && unchanged(worm)
      ensures KeyCommand(key) == GoBack ==>
                && (|old(stack)| > 0 ==> screenBuffer == old(stack)[|old(stack)| - 1] && stack == old(stack)[..|old(stack)| - 1])
                && (|old(stack)| == 0 ==> screenBuffer == ClearedGrid() && stack == [])
                && isGameRunning == old(isGameRunning) && quitRequested == old(quitRequested) && unchanged(worm)
      ensures KeyCommand(key) == Clean ==>
                && screenBuffer == ClearedGrid() && stack == old(stack)
                && isGameRunning == old(isGameRunning) && quitRequested == old(quitRequested) && unchanged(worm)
      ensures KeyCommand(key).Steer? ==>
                && isGameRunning && stack == old(stack) && quitRequested == old(quitRequested)
                && worm.movingDirection == Turned(old(worm.movingDirection), KeyCommand(key).heading)
                && (old(isGameRunning) ==> screenBuffer == old(screenBuffer) && worm.food == old(worm.food))
                && (!old(isGameRunning) ==> FoodPlaced(ClearedGrid(), old(worm.food), screenBuffer, worm.food))
      ensures KeyCommand(key) == Ignore ==> unchanged(this) && unchanged(worm)
    {
      match KeyCommand(key)
      case ShowHelp => RenderHelperScreen();
      case Exit => Quit();
      case GoBack => Back();
      case Clean => ClearScreenBuffer();
      case Steer(d) => ChangeDirection(d);
      case Ignore =>
    }

    /** The buffer rewrite of `render`: the top row becomes the score line. */
    method Render()
      requires Valid() && ScoreFits(worm.length)
      modifies this`screenBuffer
      ensures Valid()
      ensures screenBuffer == old(screenBuffer)[0 := ScoreLine(worm.length)]
    {
      screenBuffer := screenBuffer[0 := ScoreLine(worm.length)];
    }

    /** One frame: while running, the buffer is cleared and the worm moves on
        it; in every case the score line is written. */
    method Tick()
      requires Valid() && ScoreFits(worm.length) && ScoreFits(worm.length + 1)
      modifies this`screenBuffer, worm`headRow, worm`headCol, worm`length, worm`wormMem, worm`food
      ensures Valid()
      ensures !isGameRunning ==> unchanged(worm) && screenBuffer == old(screenBuffer)[0 := ScoreLine(worm.length)]
      ensures isGameRunning ==>
                && worm.headRow == Wrap(old(worm.headRow), Delta(worm.movingDirection).0, Height)
                && worm.headCol == Wrap(old(worm.headCol), Delta(worm.movingDirection).1, Width)
                && (worm.length == old(worm.length) || worm.length == old(worm.length) + 1)
                && worm.wormMem == BodyList(Cell(worm.headRow, worm.headCol), old(worm.wormMem), worm.length)
                && worm.wormMem[0] == Cell(worm.headRow, worm.headCol)
                && exists g2 :: Fed(ClearedGrid(), old(worm.food), Cell(worm.headRow, worm.headCol), old(worm.length), g2, worm.food, worm.length)
                                && screenBuffer == Painted(g2, worm.wormMem, HeadSym(worm.movingDirection))[0 := ScoreLine(worm.length)]
    {
      if isGameRunning {
        ClearScreenBuffer();
        ClearedRoom();
        screenBuffer := worm.Move(screenBuffer);
      }
      Render();
    }
  }

  /** Help and then back: the buffer and the stack are as before, and the
      game stays paused until a steering key is pressed. */
  method HelpThenBack(gs: GameState)
    requires gs.Valid()
    modifies gs`screenBuffer, gs`stack, gs`isGameRunning, gs`quitRequested, gs.worm`food, gs.worm`movingDirection
    ensures gs.Valid()
    ensures gs.screenBuffer == old(gs.screenBuffer) && gs.stack == old(gs.stack)
    ensures !gs.isGameRunning && gs.worm.movingDirection == old(gs.worm.movingDirection)
    ensures unchanged(gs.worm) && gs.quitRequested == old(gs.quitRequested)
  {
    gs.PressKey("?");
    gs.PressKey("b");
  }
}
