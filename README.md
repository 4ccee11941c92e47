# Outline tuning controller of the XNA cel-shader example

This project models the runtime tuning logic of `Game1.Update` in
`CelShaderExample/Game1.cs`: the part of the game object that, once per
frame, turns the held keys into new values for the outline shader's two
tunables and advances the object's rotation angle.

- **Thickness** (`outlineThickness`): Up adds 0.01 and Down subtracts 0.01.
  It is clamped to [0, 10] and rounded to 2 decimals.
- **Threshold** (`outlineThreshold`): Right adds 0.001 and Left subtracts
  0.001. It is clamped to [0, 1] and rounded to 3 decimals.
- **Space** restores the defaults 1.5 and 0.2. It is checked after the
  steps, so it wins over them.
- After the clamp and round, both values are written to the outline shader's
  `Thickness` and `Threshold` parameters.
- The rotation accumulator `rotate` grows by the millisecond component of
  the frame time, divided by 1000.

Files and modules:

- `math_helpers.dfy`, module `MathHelpers`: `MathHelper.Clamp` and
  `Math.Round(value, digits)`. The rounding is modelled on exact reals.
  A value is rounded to the nearest multiple of 10^-digits, and a value
  exactly halfway goes to the even multiple. This is the
  `MidpointRounding.ToEven` default that `Math.Round` uses.
- `parameter_controller.dfy`, module `ParameterController`: the tunables as
  a value. It holds the constants of lines 41-46, the key handling
  (`ApplySteps`, `ApplyKeys`), the clamp and round (`Settle`), one frame
  (`Step`) and a run of frames (`Run`).
- `tuning_properties.dfy`, module `TuningProperties`: lemmas about `Step`
  and `Run`. These cover reset dominance, independence of the two
  tunables, idle frames, round trips and driving a value to zero.
- `game.dfy`, module `Game`: the class `Game1`. It has the fields that
  `Update` changes and the outline shader's parameter table as a `map`.
  `Game1.Update` runs the source's statements in order on those fields and
  is proved to compute `Step`. The key-handling statements (lines 147-169)
  sit in the helper method `Game1.HandleKeys`, which `Update` calls.

The tunables are exact reals, so IEEE single-precision error is not
modelled. In the source, `1.5f + 0.01f` is not exactly 1.51. The rounding
to 2 and 3 decimals hides most of that difference, but the model does not
claim it hides all of it.

The starting threshold follows the code. The default restored by Space is
`0.2f` (line 42), but the field starts at `30f` (line 44). That is outside
the [0, 1] range that `Update` enforces on the threshold. The model keeps
30. `TuningProperties.FirstUpdateSnapsThreshold` shows the effect: unless
Space is held, the first `Update` clamps the threshold to 1.0. That first
value is what the first drawn frame uses.

Frame time: `gameTime.ElapsedGameTime.Milliseconds` is the millisecond
*component* of a `TimeSpan`, not its total length. `Game.Advance` takes
the elapsed whole milliseconds and keeps only `elapsedMs % 1000`. So a
frame of one second or more loses its whole seconds
(`Game.WholeSecondsDropped`).

## Model

| member | source | states |
|---|---|---|
| `MathHelpers.Clamp` | CelShaderExample/Game1.cs:174-175 | For lo <= hi, the result always lies in [lo, hi]. A value already inside is returned unchanged. A value below lo gives lo, and a value above hi gives hi. |
| `MathHelpers.HalfEven` | CelShaderExample/Game1.cs:174-175 | The midpoint rule of `Math.Round`. The result is a whole number within 1/2 of the input. When it is exactly 1/2 away, it is even. An input that is already whole is returned as it is. |
| `MathHelpers.HalfEvenUnique` | CelShaderExample/Game1.cs:174-175 | Those conditions fix the result. Any whole number within 1/2 of y, and even when exactly 1/2 away, equals `HalfEven(y)`. |
| `MathHelpers.UnitsAreGridPoints` | CelShaderExample/Game1.cs:174-175 | n units of 10^-digits is a value with at most `digits` decimals, and measuring it in units gives n back. |
| `MathHelpers.Round` | CelShaderExample/Game1.cs:174-175 | `Math.Round(x, digits)`. The result has at most `digits` decimals and lies within half a unit of 10^-digits of x. A halfway case goes to the even multiple. |
| `MathHelpers.RoundKeepsGridValues` | CelShaderExample/Game1.cs:174-175 | Rounding a value that already has at most `digits` decimals returns it unchanged. |
| `MathHelpers.RoundWithinGridBounds` | CelShaderExample/Game1.cs:174-175 | Rounding a value that lies between two grid points stays between them. So rounding after the clamp cannot leave [0, 10] or [0, 1]. |
| `ParameterController.ApplySteps` | CelShaderExample/Game1.cs:147-163 | The net effect of the four step statements. Up without Down adds 0.01 to the thickness, Down without Up subtracts 0.01, and both or neither leave it unchanged. Right and Left do the same to the threshold with 0.001. The grid and range facts about it are in `TuningProperties.ApplyKeysStaysOnGrid` and `TuningProperties.StepWithinRange`. |
| `ParameterController.ApplyKeys` | CelShaderExample/Game1.cs:147-169 | With Space held, the result is the defaults (1.5, 0.2), whatever else is held. Without Space, each value moves by at most one step, and a value whose keys are not held is unchanged. `ParameterController.Step`'s Space clause, `TuningProperties.ThicknessIgnoresThresholdKeys` and `TuningProperties.ThresholdIgnoresThicknessKeys` carry these through the clamp and round. |
| `ParameterController.Settle` | CelShaderExample/Game1.cs:174-175 | After clamp and round, for any input, the thickness is in [0, 10] with 2 decimals and the threshold is in [0, 1] with 3 decimals. |
| `ParameterController.SettleKeepsSettled` | CelShaderExample/Game1.cs:174-175 | Clamp then round changes nothing on values that are in range and on their grids. So the pair is idempotent. |
| `ParameterController.DefaultsSettled` | CelShaderExample/Game1.cs:41-42 | The defaults 1.5 and 0.2 are in range and on their grids. |
| `ParameterController.Step` | CelShaderExample/Game1.cs:147-175 | For every prior state and every key snapshot, one frame leaves both tunables in range and on grid. With Space held, the result is exactly (1.5, 0.2), whatever else is held. |
| `ParameterController.Run` | CelShaderExample/Game1.cs:147-175 | After any non-empty sequence of frames, both tunables are in range. From a settled start, this holds after any sequence, including the empty one. |
| `TuningProperties.ApplyKeysStaysOnGrid` | CelShaderExample/Game1.cs:147-169 | From a settled state, the steps of 0.01 and 0.001 and the reset keep both values on their decimal grids. |
| `TuningProperties.StepWithinRange` | CelShaderExample/Game1.cs:147-175 | From a settled state, when the stepped values stay in range, the frame's result is exactly the stepped values. Clamp and round do nothing then. |
| `TuningProperties.IdleFrameKeepsState` | CelShaderExample/Game1.cs:147-175 | With none of Up, Down, Left, Right and Space held, a settled state is left unchanged. |
| `TuningProperties.IdleFrameIdempotent` | CelShaderExample/Game1.cs:174-175 | An idle frame after any frame changes nothing that frame produced. |
| `TuningProperties.UpFromDefaults` | CelShaderExample/Game1.cs:147-150 | Holding only Up for one frame from (1.5, 0.2) gives (1.51, 0.2). |
| `TuningProperties.UpAndDownCancel` | CelShaderExample/Game1.cs:147-154 | Up and Down held together, without Space, leave a settled thickness unchanged. |
| `TuningProperties.ThicknessIgnoresThresholdKeys` | CelShaderExample/Game1.cs:147-163 | Without Space, the new thickness depends only on the old thickness and on Up and Down. Threshold keys, other keys and the threshold do not change it. |
| `TuningProperties.ThresholdIgnoresThicknessKeys` | CelShaderExample/Game1.cs:147-163 | Without Space, the new threshold depends only on the old threshold and on Right and Left. |
| `TuningProperties.FirstUpdateSnapsThreshold` | CelShaderExample/Game1.cs:44 | From the initial (1.5, 30), a first frame without Space yields threshold 1.0, whatever else is held. |
| `TuningProperties.RunConcat` | CelShaderExample/Game1.cs:126-192 | Running two key sequences one after the other is running their concatenation. |
| `TuningProperties.HoldUp` | CelShaderExample/Game1.cs:147-150 | n frames of Up add n times 0.01 to a settled thickness while the result stays at or below 10. The threshold is untouched. |
| `TuningProperties.HoldDown` | CelShaderExample/Game1.cs:151-154 | n frames of Down subtract n times 0.01 while the result stays at or above 0. |
| `TuningProperties.UpThenDownRoundTrip` | CelShaderExample/Game1.cs:147-154 | n frames of Up followed by n frames of Down return exactly to the settled start, when the climb stays within 10. |
| `TuningProperties.RoundTripLosesAtCeiling` | CelShaderExample/Game1.cs:174 | At thickness 10, one Up then one Down gives 9.99, not 10. The clamp swallows the Up, so the round trip needs its proviso. |
| `TuningProperties.HoldLeftReachesZero` | CelShaderExample/Game1.cs:160-163 | Holding Left for at least 1000 times the threshold frames brings a settled threshold to exactly 0. Any longer hold keeps it at 0. |
| `Game.Advance` | CelShaderExample/Game1.cs:136 | The rotation accumulator never decreases and grows by less than 1 per frame. For a frame under one second, it grows by exactly elapsedMs / 1000. |
| `Game.WholeSecondsDropped` | CelShaderExample/Game1.cs:136 | A frame 1000 ms longer advances the rotation by the same amount. Only the millisecond component counts. |
| `Game.Game1.constructor` | CelShaderExample/Game1.cs:41-46 | The fields start at thickness 1.5 and threshold 30 (lines 41-46) and rotate 0 (line 24), with the first keyboard snapshot recorded as the previous state (line 61). The shader table holds Thickness 1.5, Threshold 30 and ScreenSize, as LoadContent binds them at lines 95-98. |
| `Game.Game1.HandleKeys` | CelShaderExample/Game1.cs:147-169 | The conditional steps and the reset, run in statement order on the fields, leave the tunables equal to `ApplyKeys` of the old ones. |
| `Game.Game1.Update` | CelShaderExample/Game1.cs:126-192 | The new tunables equal `Step` of the old ones, so they are in range, on grid, and exactly the defaults when Space is held. `rotate` becomes `Advance(old rotate)`. The table's Thickness and Threshold become the new values and every other entry is unchanged. The previous snapshot becomes this frame's keys. |

## Left out

- `Draw` (lines 198-322) is left out. Render-target switching, device state, clears, buffer binding, effect passes and sprite batching are all calls into the XNA graphics device.
- The matrix math is left out: the rotation matrix (line 137), `CreateLookAt` and `CreatePerspectiveFieldOfView` (lines 74-76), and `Matrix.Invert` (line 253). These are floating-point linear algebra from a foreign library. The `rotation` field is therefore not modelled.
- `LoadContent` asset loading (lines 69-110) is left out. It is I/O through the content pipeline. Only its three writes to the outline shader's parameters are modelled, in the `Game1` constructor.
- The toon shader's parameters (lines 88-92, 252-253) are not modelled, and neither are the HLSL shaders. The outline shader's table is keyed by an enumeration of its three parameter names rather than by strings.
- Keyboard and gamepad polling, and the exit on Escape or Back (lines 129-132), are left out as input I/O. The key snapshot is a plain `set<Key>` parameter.
- The debug string at line 180 and its initialisation at line 64 are left out. They depend on .NET float-to-string formatting.
- `base.Update` (line 191), `Initialize`'s light direction and debug location, and the empty `UnloadContent` are left out. They are framework calls or state that `Update` never reads.
- Single-precision float arithmetic and the float-to-double conversion before `Math.Round` are not modelled. All values are exact reals.
- `Game.Game1.Update`: its tunable contract is exact-real arithmetic. The source's `float` sums can differ from it by rounding error before the clamp and round.
