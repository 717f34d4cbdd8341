/**
  * The command-shaping state machine as values: the six pieces of state the
  * teleoperation loop carries from one cycle to the next, the transition one
  * key causes, and the properties those transitions keep.
  */
module Shaping {
  import opened Bindings

  /** The help banner is printed again on every HeaderPeriod-th rescale. */
  const HeaderPeriod: int := 15

  /** The operator-facing state of the loop. */
  datatype Shaper = Shaper(
    targetSpeed: real,
    targetAngle: real,
    speedBound: real,
    angleBound: real,
    status: int,
    safeMode: bool)

  /** What one cycle produces: the new state, whether the loop ends, whether the banner is printed. */
  datatype Transition = Transition(next: Shaper, quit: bool, header: bool)

  /** What running the loop over a stream of keys produces. */
  datatype Outcome = Outcome(final: Shaper, consumed: nat, quit: bool)

  predicate BoundsPositive(s: Shaper) {
    s.speedBound > 0.0 && s.angleBound > 0.0
  }

  predicate StatusInRange(s: Shaper) {
    0 <= s.status < HeaderPeriod
  }

  /** Both targets lie within their bounds. */
  predicate Saturated(s: Shaper) {
    -s.speedBound <= s.targetSpeed <= s.speedBound &&
    -s.angleBound <= s.targetAngle <= s.angleBound
  }

  predicate Valid(s: Shaper) {
    BoundsPositive(s) && StatusInRange(s) && Saturated(s)
  }

  /** The state before the first cycle: zero targets, configured bounds, counter at zero. */
  function Initial(safeMode: bool, speedBound: real, angleBound: real): (s: Shaper)
    requires speedBound > 0.0 && angleBound > 0.0
    ensures Valid(s)
    ensures s.targetSpeed == 0.0 && s.targetAngle == 0.0 && s.status == 0
    ensures s.speedBound == speedBound && s.angleBound == angleBound && s.safeMode == safeMode
  {
    Shaper(0.0, 0.0, speedBound, angleBound, 0, safeMode)
  }

  /** The distance between two reals. */
  function Dist(a: real, b: real): real {
    if a >= b then a - b else b - a
  }

  /** The two conditional overwrites of one target: first against +bound, then against -bound. */
  function Clamp(v: real, bound: real): (r: real)
    ensures bound >= 0.0 ==> -bound <= r <= bound
    ensures bound >= 0.0 && -bound <= v <= bound ==> r == v
    ensures bound >= 0.0 && v > bound ==> r == bound
    ensures bound >= 0.0 && v < -bound ==> r == -bound
  {
    var capped := if v > bound then bound else v;
    if capped < -bound then -bound else capped
  }

  /** No point of the interval is nearer to v than its clamped value. */
  lemma ClampIsNearest(v: real, bound: real, w: real)
    requires bound >= 0.0 && -bound <= w <= bound
    ensures Dist(Clamp(v, bound), v) <= Dist(w, v)
  {
  }

  /** The command constraints that end every non-quitting cycle. */
  function Constrain(s: Shaper): (t: Shaper)
    ensures t.speedBound == s.speedBound && t.angleBound == s.angleBound
    ensures t.status == s.status && t.safeMode == s.safeMode
    ensures s.speedBound >= 0.0 && s.angleBound >= 0.0 ==> Saturated(t)
    ensures Saturated(s) ==> t == s
  {
    s.(targetSpeed := Clamp(s.targetSpeed, s.speedBound),
       targetAngle := Clamp(s.targetAngle, s.angleBound))
  }

  /** What the dispatch of one action does to the state, before the command constraints. */
  function Effect(s: Shaper, a: Action): (u: Shaper)
    requires a != Quit
    ensures a.Move? || a == Stop ==> u.(targetSpeed := s.targetSpeed, targetAngle := s.targetAngle) == s
    ensures a.Rescale? ==> u.(speedBound := s.speedBound, angleBound := s.angleBound, status := s.status) == s
    ensures a == ToggleSafety ==> u.(safeMode := s.safeMode) == s
    ensures a == Keep ==> u == s
  {
    match a
    case Move(ds, da) => s.(targetSpeed := s.targetSpeed + ds, targetAngle := s.targetAngle + da)
    case Rescale(fs, fa) =>
      s.(speedBound := s.speedBound * fs, angleBound := s.angleBound * fa,
         status := (s.status + 1) % HeaderPeriod)
    case Stop => s.(targetSpeed := 0.0, targetAngle := 0.0)
    case ToggleSafety => s.(safeMode := !s.safeMode)
    case Keep => s
  }

  /** One cycle of the loop for one key: dispatch, then clamp, unless the key is Ctrl-C. */
  function Apply(s: Shaper, key: Key, speedI: real, angleI: real): (t: Transition)
    ensures t.quit <==> key == Press(CtrlC)
    ensures t.quit ==> t.next == s && !t.header
    ensures t.header <==> Dispatch(key, speedI, angleI).Rescale? && s.status == HeaderPeriod - 1
    ensures Valid(s) ==> Valid(t.next)
  {
    var a := Dispatch(key, speedI, angleI);
    if a == Quit then Transition(s, true, false)
    else Transition(Constrain(Effect(s, a)), false, a.Rescale? && s.status == HeaderPeriod - 1)
  }

  /** The loop over a stream of keys: one cycle per key until Ctrl-C or the end of the stream. */
  function ApplyAll(s: Shaper, keys: seq<Key>, speedI: real, angleI: real): (o: Outcome)
    ensures o.consumed <= |keys|
    ensures o.quit <==> Press(CtrlC) in keys
    ensures o.quit ==> o.consumed > 0 && keys[o.consumed - 1] == Press(CtrlC) && Press(CtrlC) !in keys[..o.consumed - 1]
    ensures !o.quit ==> o.consumed == |keys|
    decreases |keys|
  {
    if keys == [] then Outcome(s, 0, false)
    else
      var t := Apply(s, keys[0], speedI, angleI);
      if t.quit then Outcome(s, 1, true)
      else
        var rest := ApplyAll(t.next, keys[1..], speedI, angleI);
        assert keys == [keys[0]] + keys[1..];
        assert rest.quit ==> keys[..rest.consumed + 1] == [keys[0]] + keys[1..][..rest.consumed];
        Outcome(rest.final, rest.consumed + 1, rest.quit)
  }

  /** Saturation, positive bounds and the counter range hold after any stream of keys. */
  lemma {:induction false} ApplyAllKeepsValid(s: Shaper, keys: seq<Key>, speedI: real, angleI: real)
    requires Valid(s)
    ensures Valid(ApplyAll(s, keys, speedI, angleI).final)
    decreases |keys|
  {
    if keys != [] {
      var t := Apply(s, keys[0], speedI, angleI);
      if !t.quit {
        ApplyAllKeepsValid(t.next, keys[1..], speedI, angleI);
      }
    }
  }

  /**
    * A move key adds exactly its binding to the targets before clamping:
    * a sum within the bound is kept, an overshoot is clipped to the bound.
    * Nothing but the targets changes.
    */
  lemma MoveAddsThenClips(s: Shaper, c: char, speedI: real, angleI: real)
    requires Valid(s) && IsMoveKey(c)
    ensures var t := Apply(s, Press(c), speedI, angleI);
            var d := MoveBinding(c, speedI, angleI);
            var v, w := s.targetSpeed + d.0, s.targetAngle + d.1;
            !t.quit && !t.header &&
            t.next.speedBound == s.speedBound && t.next.angleBound == s.angleBound &&
            t.next.status == s.status && t.next.safeMode == s.safeMode &&
            (-s.speedBound <= v <= s.speedBound ==> t.next.targetSpeed == v) &&
            (v > s.speedBound ==> t.next.targetSpeed == s.speedBound) &&
            (v < -s.speedBound ==> t.next.targetSpeed == -s.speedBound) &&
            (-s.angleBound <= w <= s.angleBound ==> t.next.targetAngle == w) &&
            (w > s.angleBound ==> t.next.targetAngle == s.angleBound) &&
            (w < -s.angleBound ==> t.next.targetAngle == -s.angleBound)
  {
  }

  /**
    * Opposite move keys undo each other when neither step is clipped:
    * `,` undoes `i` and `l` undoes `j`. With a positive increment, `i`
    * raises a speed below the bound and `j` raises an angle below the bound.
    */
  lemma OppositeMovesCancel(s: Shaper, speedI: real, angleI: real)
    requires Valid(s)
    ensures -s.speedBound <= s.targetSpeed + speedI <= s.speedBound ==>
              Apply(Apply(s, Press('i'), speedI, angleI).next, Press(','), speedI, angleI).next == s
    ensures -s.angleBound <= s.targetAngle + angleI <= s.angleBound ==>
              Apply(Apply(s, Press('j'), speedI, angleI).next, Press('l'), speedI, angleI).next == s
    ensures speedI > 0.0 && s.targetSpeed < s.speedBound ==>
              Apply(s, Press('i'), speedI, angleI).next.targetSpeed > s.targetSpeed
    ensures angleI > 0.0 && s.targetAngle < s.angleBound ==>
              Apply(s, Press('j'), speedI, angleI).next.targetAngle > s.targetAngle
  {
  }

  /** A stream of n presses of one key. */
  function Presses(c: char, n: nat): (keys: seq<Key>)
    ensures |keys| == n && forall i :: 0 <= i < n ==> keys[i] == Press(c)
  {
    if n == 0 then [] else [Press(c)] + Presses(c, n - 1)
  }

  /** The sum of n equal increments. */
  function Accumulated(n: nat, inc: real): real {
    if n == 0 then 0.0 else Accumulated(n - 1, inc) + inc
  }

  /** The sum of n equal increments is n times the increment. */
  lemma {:induction false} AccumulatedIsProduct(n: nat, inc: real)
    ensures Accumulated(n, inc) == (n as real) * inc
  {
    if n > 0 {
      AccumulatedIsProduct(n - 1, inc);
    }
  }

  /**
    * Pressing the speed-up key n times from a standing start adds n increments
    * until the sum reaches the bound, and is clipped to the bound from then on.
    */
  lemma {:induction false} SpeedUpPresses(s: Shaper, speedI: real, angleI: real, n: nat)
    requires Valid(s) && s.targetSpeed == 0.0 && speedI >= 0.0
    ensures var o := ApplyAll(s, Presses('i', n), speedI, angleI);
            !o.quit &&
            o.final.targetSpeed == (if Accumulated(n, speedI) <= s.speedBound then Accumulated(n, speedI) else s.speedBound) &&
            o.final.targetAngle == s.targetAngle && o.final.speedBound == s.speedBound &&
            o.final.angleBound == s.angleBound && o.final.status == s.status && o.final.safeMode == s.safeMode
  {
    if n > 0 {
      SpeedUpPresses(s, speedI, angleI, n - 1);
      var prev := ApplyAll(s, Presses('i', n - 1), speedI, angleI);
      ApplyAllKeepsValid(s, Presses('i', n - 1), speedI, angleI);
      assert Presses('i', n) == Presses('i', n - 1) + [Press('i')] by {
        assert Presses('i', n) == [Press('i')] + Presses('i', n - 1);
        PressesAppend('i', n - 1);
      }
      ApplyAllAppend(s, Presses('i', n - 1), Press('i'), speedI, angleI);
      MoveAddsThenClips(prev.final, 'i', speedI, angleI);
    }
  }

  /** A press can be put at either end of a run of presses of the same key. */
  lemma {:induction false} PressesAppend(c: char, n: nat)
    ensures [Press(c)] + Presses(c, n) == Presses(c, n) + [Press(c)]
  {
    if n > 0 {
      PressesAppend(c, n - 1);
    }
  }

  /** Running a stream that does not quit, then one more key, is one more cycle. */
  lemma {:induction false} ApplyAllAppend(s: Shaper, keys: seq<Key>, key: Key, speedI: real, angleI: real)
    requires !ApplyAll(s, keys, speedI, angleI).quit
    ensures var o := ApplyAll(s, keys, speedI, angleI);
            var t := Apply(o.final, key, speedI, angleI);
            ApplyAll(s, keys + [key], speedI, angleI) ==
              if t.quit then Outcome(o.final, |keys| + 1, true) else Outcome(t.next, |keys| + 1, false)
    decreases |keys|
  {
    if keys == [] {
      assert [] + [key] == [key];
    } else {
      var t := Apply(s, keys[0], speedI, angleI);
      assert (keys + [key])[0] == keys[0];
      assert (keys + [key])[1..] == keys[1..] + [key];
      ApplyAllAppend(t.next, keys[1..], key, speedI, angleI);
    }
  }

  /** With the default increment of 0.5 m/s and bound of 3.0 m/s: two presses give 1.0, seven give 3.0. */
  lemma DefaultSpeedUpScenario(safeMode: bool, angleI: real, angleBound: real)
    requires angleBound > 0.0
    ensures ApplyAll(Initial(safeMode, 3.0, angleBound), Presses('i', 2), 0.5, angleI).final.targetSpeed == 1.0
    ensures ApplyAll(Initial(safeMode, 3.0, angleBound), Presses('i', 7), 0.5, angleI).final.targetSpeed == 3.0
  {
    SpeedUpPresses(Initial(safeMode, 3.0, angleBound), 0.5, angleI, 2);
    SpeedUpPresses(Initial(safeMode, 3.0, angleBound), 0.5, angleI, 7);
  }

  /** Space or k sets both targets to exactly zero and changes nothing else; a second stop changes nothing. */
  lemma StopZeroesTargets(s: Shaper, key: Key, speedI: real, angleI: real)
    requires Valid(s) && (key == Press(' ') || key == Press('k'))
    ensures var t := Apply(s, key, speedI, angleI);
            !t.quit && !t.header &&
            t.next == s.(targetSpeed := 0.0, targetAngle := 0.0) &&
            Apply(t.next, key, speedI, angleI).next == t.next
  {
  }

  /**
    * A bound key multiplies exactly one bound by 1.1 or 0.9, keeps both bounds
    * positive, leaves the safety flag alone and advances the counter mod 15;
    * the banner is printed exactly when the counter was 14.
    */
  lemma RescaleOneBound(s: Shaper, c: char, speedI: real, angleI: real)
    requires Valid(s) && IsBoundKey(c)
    ensures var t := Apply(s, Press(c), speedI, angleI);
            !t.quit && BoundsPositive(t.next) && t.next.safeMode == s.safeMode &&
            (c == 'w' ==> t.next.speedBound == Grow * s.speedBound && t.next.angleBound == s.angleBound) &&
            (c == 'x' ==> t.next.speedBound == Shrink * s.speedBound && t.next.angleBound == s.angleBound) &&
            (c == 'e' ==> t.next.angleBound == Grow * s.angleBound && t.next.speedBound == s.speedBound) &&
            (c == 'c' ==> t.next.angleBound == Shrink * s.angleBound && t.next.speedBound == s.speedBound) &&
            t.next.status == (if s.status == HeaderPeriod - 1 then 0 else s.status + 1) &&
            (t.header <==> s.status == HeaderPeriod - 1)
  {
  }

  /** Growing a bound never moves a target; shrinking it below a target pulls the target onto the new bound. */
  lemma ShrinkPullsTarget(s: Shaper, c: char, speedI: real, angleI: real)
    requires Valid(s) && IsBoundKey(c)
    ensures var t := Apply(s, Press(c), speedI, angleI);
            (c == 'w' || c == 'e' ==> t.next.targetSpeed == s.targetSpeed && t.next.targetAngle == s.targetAngle) &&
            (c == 'x' ==>
               (t.next.targetAngle == s.targetAngle &&
                t.next.targetSpeed == Clamp(s.targetSpeed, Shrink * s.speedBound) &&
                (s.targetSpeed > Shrink * s.speedBound ==> t.next.targetSpeed == Shrink * s.speedBound) &&
                (s.targetSpeed < -Shrink * s.speedBound ==> t.next.targetSpeed == -Shrink * s.speedBound))) &&
            (c == 'c' ==>
               (t.next.targetSpeed == s.targetSpeed &&
                t.next.targetAngle == Clamp(s.targetAngle, Shrink * s.angleBound) &&
                (s.targetAngle > Shrink * s.angleBound ==> t.next.targetAngle == Shrink * s.angleBound) &&
                (s.targetAngle < -Shrink * s.angleBound ==> t.next.targetAngle == -Shrink * s.angleBound)))
  {
  }

  /** w then x leaves the throttle bound at 0.99 of its old value, not at the old value. */
  lemma GrowThenShrinkSpeed(s: Shaper, speedI: real, angleI: real)
    requires Valid(s)
    ensures var t := Apply(Apply(s, Press('w'), speedI, angleI).next, Press('x'), speedI, angleI);
            t.next.speedBound == 0.99 * s.speedBound && t.next.speedBound != s.speedBound &&
            t.next.angleBound == s.angleBound
  {
  }

  /** s flips the safety flag and nothing else; pressing it twice restores the state. */
  lemma ToggleFlipsOnlySafety(s: Shaper, speedI: real, angleI: real)
    requires Valid(s)
    ensures var t := Apply(s, Press('s'), speedI, angleI);
            !t.quit && !t.header && t.next == s.(safeMode := !s.safeMode) &&
            Apply(t.next, Press('s'), speedI, angleI).next == s
  {
  }

  /** Any key outside the tables, the empty read included, leaves a valid state as it is; Ctrl-C leaves any state as it is. */
  lemma OtherKeysKeepState(s: Shaper, key: Key, speedI: real, angleI: real)
    requires Valid(s) || key == Press(CtrlC)
    requires Dispatch(key, speedI, angleI) == Keep || key == Press(CtrlC)
    ensures var t := Apply(s, key, speedI, angleI);
            t.next == s && !t.header && (t.quit <==> key == Press(CtrlC))
  {
  }
}
