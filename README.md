# Keyboard teleoperation command shaper

A model of the command-shaping state machine inside the control loop of the
`stauto_teleop` keyboard teleoperation node (`stauto_control/src/teleop_keyboard.py`).
Each cycle the loop reads one key, or an empty read when the 0.1 s poll times
out. It dispatches the key through the move table (`i`, `j`, `l`, `,`), the
bound table (`w`, `x`, `e`, `c`), the stop keys (space, `k`), the safety
toggle (`s`) and Ctrl-C, in that order. It then clamps the target speed and
target steering angle into `[-bound, +bound]`. Ctrl-C leaves the loop before
the clamp.

The project has three modules:

- `Bindings` (`bindings.dfy`) holds the key event (`NoKey` for the empty read,
  `Press(c)` for a character), the two binding tables and `Dispatch`. That
  function turns a key into a tagged action, following the precedence of the
  loop's `if/elif` chain.
- `Shaping` (`shaping.dfy`) treats the six pieces of loop state as a value
  `Shaper`: target speed, target angle, speed bound, angle bound, the rescale
  counter `status` and the safety flag. It defines the transition of one
  cycle (`Apply`) and of a stream of keys (`ApplyAll`). It also proves what
  those transitions keep: saturation, positive bounds, the counter range,
  exact stop, exact rescale, and the toggle.
- `Teleop` (`teleop.dfy`) is the loop as the source writes it: a class
  `CommandShaper` with the six fields, reassigned in place. `Step` runs one
  pass of the dispatch and the four conditional overwrites. `Run` is the
  `while` loop over a stream of keys. Both are proved equal to the `Shaping`
  transitions.

Speeds, angles and bounds are Dafny `real`s, which are exact rationals.
Rescaling by 1.1 and then by 0.9 therefore gives exactly 0.99 times the bound.
The increments `speed_i` and `angle_i` are fixed when the shaper is built, as
are the initial bounds. Both bounds must be strictly positive.

## Model

| member | source | states |
|---|---|---|
| `Bindings.MoveBinding` | stauto_control/src/teleop_keyboard.py:108-113 | `i` and `,` change only the speed, `i` by `+speed_i` and `,` by `-speed_i`; `j` and `l` change only the angle, `j` by `+angle_i` and `l` by `-angle_i` |
| `Shaping.OppositeMovesCancel` | stauto_control/src/teleop_keyboard.py:108-113 | `,` undoes `i` and `l` undoes `j` when neither step is clipped; with a positive increment, `i` raises a speed below its bound and `j` raises an angle below its bound |
| `Bindings.BoundBinding` | stauto_control/src/teleop_keyboard.py:115-120 | each bound key leaves exactly one factor at 1; every factor lies in (0, 2); exactly `w` and `e` grow a bound |
| `Bindings.Dispatch` | stauto_control/src/teleop_keyboard.py:136-157 | the empty read does nothing; a key is a move exactly when it is in the move table and a rescale exactly when it is in the bound table; space and `k` stop; `s` toggles; Ctrl-C quits |
| `Shaping.Initial` | stauto_control/src/teleop_keyboard.py:122-125 | the start state has zero targets, counter 0 and the configured bounds and flag, and it satisfies the loop invariant |
| `Shaping.Clamp` | stauto_control/src/teleop_keyboard.py:160-163 | for a non-negative bound, the result lies in `[-bound, bound]`; a value already inside is kept; an overshoot becomes exactly the bound it crossed |
| `Shaping.ClampIsNearest` | stauto_control/src/teleop_keyboard.py:160-167 | the clamped value is the point of `[-bound, bound]` nearest to the unclamped value |
| `Shaping.Constrain` | stauto_control/src/teleop_keyboard.py:159-167 | the command constraints change only the targets, make them saturated, and change nothing when they already are |
| `Shaping.Effect` | stauto_control/src/teleop_keyboard.py:137-155 | moves and stops change only the targets; a rescale changes only the bounds and the counter; the toggle changes only the flag; any other key changes nothing |
| `Shaping.Apply` | stauto_control/src/teleop_keyboard.py:136-167 | a cycle quits exactly on Ctrl-C, and then changes nothing; the banner is printed exactly on a rescale with the counter at 14; positive bounds, counter in 0..14 and saturation are preserved |
| `Shaping.ApplyAll` | stauto_control/src/teleop_keyboard.py:131-167 | the loop over a key stream quits exactly when the stream holds Ctrl-C, and then stops at its first occurrence; otherwise it reads every key |
| `Shaping.ApplyAllKeepsValid` | stauto_control/src/teleop_keyboard.py:159-167 | after any stream of keys, both targets are within their bounds, both bounds are positive and the counter is in 0..14 |
| `Shaping.MoveAddsThenClips` | stauto_control/src/teleop_keyboard.py:137-167 | a move key adds exactly its binding to the targets; the sum is kept if within the bound and clipped to exactly the bound if not; nothing else changes |
| `Shaping.SpeedUpPresses` | stauto_control/src/teleop_keyboard.py:137-161 | from a standing start, `n` presses of `i` give the sum of `n` increments, or the speed bound once that sum exceeds it; nothing else changes |
| `Shaping.AccumulatedIsProduct` | stauto_control/src/teleop_keyboard.py:137-138 | the sum of `n` presses' increments equals `n` times the increment, so `Shaping.SpeedUpPresses` gives min(n·speed_i, bound) |
| `Shaping.DefaultSpeedUpScenario` | stauto_control/src/teleop_keyboard.py:88-90 | with increment 0.5 and bound 3.0, two presses of `i` give 1.0 and seven give 3.0 |
| `Shaping.StopZeroesTargets` | stauto_control/src/teleop_keyboard.py:147-149 | space or `k` sets both targets to exactly 0 and changes nothing else; a second stop leaves that state as it is |
| `Shaping.RescaleOneBound` | stauto_control/src/teleop_keyboard.py:140-146 | a bound key multiplies exactly one bound by 1.1 or 0.9, keeps both positive and keeps the flag; the counter advances by one mod 15, and the banner is printed exactly when it was 14 |
| `Shaping.ShrinkPullsTarget` | stauto_control/src/teleop_keyboard.py:140-167 | a grow key never moves a target; a shrink key pulls a target beyond the new bound onto that bound in the same cycle, and leaves the other target alone |
| `Shaping.GrowThenShrinkSpeed` | stauto_control/src/teleop_keyboard.py:140-142 | `w` then `x` leaves the speed bound at 0.99 times its old value, which differs from the old value, and keeps the angle bound |
| `Shaping.ToggleFlipsOnlySafety` | stauto_control/src/teleop_keyboard.py:150-151 | `s` flips the safety flag and changes nothing else; pressing it twice restores the state |
| `Shaping.OtherKeysKeepState` | stauto_control/src/teleop_keyboard.py:137-167 | a key outside every table, including the empty read, leaves a saturated state unchanged; Ctrl-C leaves any state unchanged and ends the loop |
| `Teleop.CommandShaper.constructor` | stauto_control/src/teleop_keyboard.py:87-125 | the fields start at the initial state from the configured flag, increments and bounds |
| `Teleop.CommandShaper.Step` | stauto_control/src/teleop_keyboard.py:136-167 | the in-place dispatch and constraints produce exactly the state, quit flag and banner flag of `Shaping.Apply`, and keep the loop invariant |
| `Teleop.CommandShaper.ConstrainTargets` | stauto_control/src/teleop_keyboard.py:160-167 | the four conditional overwrites leave exactly the state given by `Shaping.Constrain` |
| `Teleop.CommandShaper.Run` | stauto_control/src/teleop_keyboard.py:131-167 | the loop over a key stream ends in exactly the state, key count and quit flag of `Shaping.ApplyAll`, and keeps the loop invariant |

## Left out

- Terminal key capture (`getKey`) and the terminal restore are left out. The key is an input of `Step`. The blocking read in safety mode is not modelled, so `NoKey` can reach `Step` in either mode.
- Node start-up and parameter loading are left out, as are the `/initialpose` listener, transform broadcasting and odometry publishing. The flag, increments and bounds are constructor arguments.
- The default angle increment and angle bound (0.2° and 29°, converted to radians with π) are not model constants, because they are not rational. The defaults of 0.5 m/s and 3.0 m/s appear only in `Shaping.DefaultSpeedUpScenario`.
- The bicycle kinematics, the pose integration and the `dt` computation of each cycle are left out. They need `atan`, `tan`, `sin`, `cos` and floating point.
- Console output is left out. That covers the bounds line printed on every rescale, the mode messages and the speed/angle printout. Only whether the help banner is reprinted is modelled, as the `header` result.
- The catch-all exception handler has no algorithmic content and is left out.
- Floating-point rounding is not modelled; the reals are exact. `w` then `x` gives exactly 0.99 times the bound here. Python's floats round twice, as `(B*1.1)*0.9`, so the result is close to 0.99·B but neither exactly 0.99·B nor a fixed multiple of B. A bound shrunk by `x` or `c` keeps shrinking here, while a float bound stops shrinking at a tiny positive subnormal value. Repeated `w` or `e` (about 7,400 presses from 3.0) overflows a float bound to infinity; after that `x` and `c` cannot shrink it, so `Shaping.GrowThenShrinkSpeed`'s "differs from the old value" no longer holds for the float program. The real bound never overflows.
- `Teleop.CommandShaper.constructor` requires both initial bounds to be strictly positive, but the source accepts any configured value. With a non-positive bound, the constraints would set the target to the bound's absolute value on every cycle, and the model does not cover that configuration.
- The end of the key stream in `Shaping.ApplyAll` and `Teleop.CommandShaper.Run` stands for the node shutting down, which is the loop's other exit condition. Shutdown itself is not modelled.
