/**
  * The keyboard teleoperation loop's operator state as an object whose six
  * fields each cycle reassigns in place, proved against the transitions of
  * module Shaping.
  */
module Teleop {
  import opened Bindings
  import Shaping

  class CommandShaper {
    var targetSpeed: real
    var targetAngle: real
    var speedBound: real
    var angleBound: real
    /** The rescale counter, mod 15; the banner is reprinted when it wraps. */
    var status: int
    var safeMode: bool
    /** Increments of the move table, fixed at start-up. */
    const speedI: real
    const angleI: real

    /** The abstract value of the six fields. */
    function State(): Shaping.Shaper
      reads this
    {
      Shaping.Shaper(targetSpeed, targetAngle, speedBound, angleBound, status, safeMode)
    }

    ghost predicate Valid()
      reads this
    {
      Shaping.Valid(State())
    }

    /** The configured parameters and the initial state of the loop. */
    constructor (safetyMode: bool, speedIncrement: real, angleIncrement: real, initialSpeedBound: real, initialAngleBound: real)
      requires initialSpeedBound > 0.0 && initialAngleBound > 0.0
      ensures Valid()
      ensures State() == Shaping.Initial(safetyMode, initialSpeedBound, initialAngleBound)
      ensures speedI == speedIncrement && angleI == angleIncrement
    {
      safeMode := safetyMode;
      speedI := speedIncrement;
      angleI := angleIncrement;
      speedBound := initialSpeedBound;
      angleBound := initialAngleBound;
      status := 0;
      targetSpeed := 0.0;
      targetAngle := 0.0;
    }

    /**
      * One pass through the body of the control loop for one key: the
      * if/elif dispatch, then the four command constraints. Returns whether
      * the loop breaks and whether the help banner is printed.
      */
    method Step(key: Key) returns (quit: bool, header: bool)
      requires Valid()
      modifies this
      ensures Valid()
      ensures var t := Shaping.Apply(old(State()), key, speedI, angleI);
              State() == t.next && quit == t.quit && header == t.header
    {
      ghost var before := State();
      ghost var action := Dispatch(key, speedI, angleI);
      quit, header := false, false;
      if key.Press? && IsMoveKey(key.c) {
        var d := MoveBinding(key.c, speedI, angleI);
        targetSpeed := targetSpeed + d.0;
        targetAngle := targetAngle + d.1;
      } else if key.Press? && IsBoundKey(key.c) {
        var f := BoundBinding(key.c);
        speedBound := speedBound * f.0;
        angleBound := angleBound * f.1;
        if status == Shaping.HeaderPeriod - 1 {
          header := true;
        }
        status := (status + 1) % Shaping.HeaderPeriod;
      } else if key == Press(' ') || key == Press('k') {
        targetSpeed := 0.0;
        targetAngle := 0.0;
      } else if key == Press('s') {
        safeMode := !safeMode;
      } else if key == Press(CtrlC) {
        quit := true;
        return;
      }
      assert State() == Shaping.Effect(before, action);
      ConstrainTargets();
    }

    /** The command constraints: each target is overwritten by its bound when it lies outside it. */
    method ConstrainTargets()
      modifies this
      ensures State() == Shaping.Constrain(old(State()))
    {
      if targetSpeed > speedBound {
        targetSpeed := speedBound;
      }
      if targetSpeed < -speedBound {
        targetSpeed := -speedBound;
      }
      if targetAngle > angleBound {
        targetAngle := angleBound;
      }
      if targetAngle < -angleBound {
        targetAngle := -angleBound;
      }
    }

    /**
      * The control loop over a stream of keys: one Step per key until
      * Ctrl-C breaks it or the stream ends. Returns how many keys were read
      * and whether the loop broke.
      */
    method Run(keys: seq<Key>) returns (consumed: nat, quit: bool)
      requires Valid()
      modifies this
      ensures Valid()
      ensures var o := Shaping.ApplyAll(old(State()), keys, speedI, angleI);
              State() == o.final && consumed == o.consumed && quit == o.quit
    {
      consumed, quit := 0, false;
      while consumed < |keys|
        invariant Valid()
        invariant consumed <= |keys|
        invariant Shaping.ApplyAll(old(State()), keys, speedI, angleI)
               == Shaping.ApplyAll(State(), keys[consumed..], speedI, angleI).(consumed :=
                    consumed + Shaping.ApplyAll(State(), keys[consumed..], speedI, angleI).consumed)
        decreases |keys| - consumed
      {
        var stop, _ := Step(keys[consumed]);
        consumed := consumed + 1;
        if stop {
          quit := true;
          return;
        }
      }
    }
  }
}
