/**
  * Key events and the binding tables of the keyboard teleoperation loop.
  * A key is looked up, in this order, in the move table, in the bound
  * table, then compared with the stop keys, the safety toggle and Ctrl-C;
  * anything else keeps the previous command.
  */
module Bindings {

  /** One poll of the keyboard: the empty read of a timeout, or one character. */
  datatype Key = NoKey | Press(c: char)

  /** The character the terminal delivers for Ctrl-C in raw mode. */
  const CtrlC: char := '\U{3}'

  /** Factors of the bound table: grow or shrink a bound by ten percent. */
  const Grow: real := 1.1
  const Shrink: real := 0.9

  /** What one key asks the loop to do. */
  datatype Action =
    | Move(dSpeed: real, dAngle: real)
    | Rescale(speedFactor: real, angleFactor: real)
    | Stop
    | ToggleSafety
    | Quit
    | Keep

  /** Keys of the move table: speed up, steer left, steer right, slow down. */
  predicate IsMoveKey(c: char) {
    c == 'i' || c == 'j' || c == 'l' || c == ','
  }

  /** Keys of the bound table: throttle bound up/down, steering bound up/down. */
  predicate IsBoundKey(c: char) {
    c == 'w' || c == 'x' || c == 'e' || c == 'c'
  }

  /** The (speed, angle) increment a move key adds to the targets. */
  function MoveBinding(c: char, speedI: real, angleI: real): (d: (real, real))
    requires IsMoveKey(c)
    ensures c == 'i' || c == ',' ==> d.1 == 0.0
    ensures c == 'j' || c == 'l' ==> d.0 == 0.0
    ensures c == 'i' ==> d.0 == speedI
    ensures c == ',' ==> d.0 == -speedI
    ensures c == 'j' ==> d.1 == angleI
    ensures c == 'l' ==> d.1 == -angleI
  {
    if c == 'i' then (speedI, 0.0)
    else if c == 'j' then (0.0, angleI)
    else if c == 'l' then (0.0, -angleI)
    else (-speedI, 0.0)
  }

  /** The (speed, angle) factors a bound key multiplies the bounds by. */
  function BoundBinding(c: char): (f: (real, real))
    requires IsBoundKey(c)
    ensures f.0 == 1.0 <==> c == 'e' || c == 'c'
    ensures f.1 == 1.0 <==> c == 'w' || c == 'x'
    ensures 0.0 < f.0 < 2.0 && 0.0 < f.1 < 2.0
    ensures (f.0 > 1.0 || f.1 > 1.0) <==> c == 'w' || c == 'e'
  {
    if c == 'w' then (Grow, 1.0)
    else if c == 'x' then (Shrink, 1.0)
    else if c == 'e' then (1.0, Grow)
    else (1.0, Shrink)
  }

  /** The action of one key, following the precedence of the loop's if/elif chain. */
  function Dispatch(key: Key, speedI: real, angleI: real): (a: Action)
    ensures key == NoKey ==> a == Keep
    ensures a.Move? <==> key.Press? && IsMoveKey(key.c)
    ensures a.Rescale? <==> key.Press? && IsBoundKey(key.c)
    ensures a.Move? ==> (a.dSpeed, a.dAngle) == MoveBinding(key.c, speedI, angleI)
    ensures a.Rescale? ==> (a.speedFactor, a.angleFactor) == BoundBinding(key.c)
    ensures a == Stop <==> key == Press(' ') || key == Press('k')
    ensures a == ToggleSafety <==> key == Press('s')
    ensures a == Quit <==> key == Press(CtrlC)
  {
    match key
    case NoKey => Keep
    case Press(c) =>
      if IsMoveKey(c) then
        var d := MoveBinding(c, speedI, angleI);
        Move(d.0, d.1)
      else if IsBoundKey(c) then
        var f := BoundBinding(c);
        Rescale(f.0, f.1)
      else if c == ' ' || c == 'k' then Stop
      else if c == 's' then ToggleSafety
      else if c == CtrlC then Quit
      else Keep
  }
}
