/**
 The player's latest input: which arrow keys are held and where the mouse pointer is.
 The keyboard and mouse event handlers write it; each tick of the game reads it.
 */
module Input {
  import opened Int32

  /** A snapshot of the input state. */
  datatype Intent = Intent(right: bool, left: bool, mouseX: I32, mouseY: I32)

  class UserInput {
    var keyboardRight: bool
    var keyboardLeft: bool
    var mouseX: I32
    var mouseY: I32

    function Snapshot(): Intent
      reads this
    {
      Intent(keyboardRight, keyboardLeft, mouseX, mouseY)
    }

    /** No key held, pointer at the origin. */
    constructor ()
      ensures Snapshot() == Intent(false, false, 0, 0)
    {
      keyboardRight, keyboardLeft := false, false;
      mouseX, mouseY := 0, 0;
    }

    method SetKeyboardRight(press: bool)
      modifies this
      ensures Snapshot() == old(Snapshot()).(right := press)
    {
      keyboardRight := press;
    }

    method SetKeyboardLeft(press: bool)
      modifies this
      ensures Snapshot() == old(Snapshot()).(left := press)
    {
      keyboardLeft := press;
    }

    method SetMousePosition(x: I32, y: I32)
      modifies this
      ensures Snapshot() == old(Snapshot()).(mouseX := x, mouseY := y)
    {
      mouseX := x;
      mouseY := y;
    }
  }
}
