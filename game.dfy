/** The Game1 object of CelShaderExample/Game1.cs, restricted to the state
    its Update method changes: the two outline tunables, the rotation
    accumulator, the previous keyboard snapshot and the outline shader's
    parameter store. */
module Game {
  import opened MathHelpers
  import opened ParameterController

  /** The parameters the outline shader declares, by their names. */
  datatype OutlineParam = Thickness | Threshold | ScreenSize

  /** A value held by a shader parameter. */
  datatype ParamValue = Scalar(value: real) | Vector2(x: real, y: real)

  /** The rotation accumulator after one frame. The frame time enters as
      TimeSpan.Milliseconds, the millisecond component of the elapsed
      time, so whole seconds of a long frame are dropped. */
  function Advance(rotate: real, elapsedMs: nat): (r: real)
    ensures rotate <= r < rotate + 1.0
    ensures elapsedMs < 1000 ==> r - rotate == elapsedMs as real / 1000.0
  {
    var milliseconds := elapsedMs % 1000;
    rotate + milliseconds as real / 1000.0
  }

  /** A frame of one second or longer advances the rotation only by the
      part beyond its whole seconds. */
  lemma {:induction false} WholeSecondsDropped(rotate: real, elapsedMs: nat)
    ensures Advance(rotate, elapsedMs + 1000) == Advance(rotate, elapsedMs)
  {
    assert (elapsedMs + 1000) % 1000 == elapsedMs % 1000;
  }

  class Game1 {
    var outlineThickness: real
    var outlineThreshold: real
    var rotate: real
    var prevKeys: set<Key>
    /** The outline shader's parameter table, by parameter name. */
    var outlineParams: map<OutlineParam, ParamValue>

    function Tuning(): Tunables
      reads this
    {
      Tunables(outlineThickness, outlineThreshold)
    }

    /** The shader's Thickness and Threshold hold the current tunables. */
    predicate ParamsBound()
      reads this
    {
      && Thickness in outlineParams && outlineParams[Thickness] == Scalar(outlineThickness)
      && Threshold in outlineParams && outlineParams[Threshold] == Scalar(outlineThreshold)
    }

    /** The field initialisers, Initialize's first keyboard snapshot and
        the outline parameters LoadContent binds. */
    constructor (initialKeys: set<Key>, screenWidth: nat, screenHeight: nat)
      ensures Tuning() == Initial
      ensures rotate == 0.0 && prevKeys == initialKeys
      ensures outlineParams == map[Thickness := Scalar(InitialThickness),
                                   Threshold := Scalar(InitialThreshold),
                                   ScreenSize := Vector2(screenWidth as real, screenHeight as real)]
      ensures ParamsBound()
    {
      outlineThickness := InitialThickness;
      outlineThreshold := InitialThreshold;
      rotate := 0.0;
      prevKeys := initialKeys;
      outlineParams := map[];
      new;
      outlineParams := outlineParams[Thickness := Scalar(outlineThickness)];
      outlineParams := outlineParams[Threshold := Scalar(outlineThreshold)];
      outlineParams := outlineParams[ScreenSize := Vector2(screenWidth as real, screenHeight as real)];
    }

    /** The key handling of Update: the fixed steps in statement order,
        then the reset, checked last. */
    method HandleKeys(keys: set<Key>)
      modifies this`outlineThickness, this`outlineThreshold
      ensures Tuning() == ApplyKeys(old(Tuning()), keys)
    {
      ghost var before := Tuning();
      if Up in keys {
        outlineThickness := outlineThickness + TStep;
      }
      if Down in keys {
        outlineThickness := outlineThickness - TStep;
      }

      if Right in keys {
        outlineThreshold := outlineThreshold + HStep;
      }
      if Left in keys {
        outlineThreshold := outlineThreshold - HStep;
      }
      assert Tuning() == ApplySteps(before, keys);

      if Space in keys {
        outlineThickness := DefaultThickness;
        outlineThreshold := DefaultThreshold;
      }
    }

    /** One frame of Update: advance the rotation, apply the held keys,
        clamp and round, and rebind the shader's tunables. */
    method Update(keys: set<Key>, elapsedMs: nat)
      modifies this
      ensures Tuning() == Step(old(Tuning()), keys)
      ensures Settled(Tuning())
      ensures Space in keys ==> Tuning() == Defaults
      ensures rotate == Advance(old(rotate), elapsedMs)
      ensures outlineParams == old(outlineParams)[Thickness := Scalar(outlineThickness)]
                                                 [Threshold := Scalar(outlineThreshold)]
      ensures ParamsBound()
      ensures prevKeys == keys
    {
      rotate := rotate + (elapsedMs % 1000) as real / 1000.0;

      HandleKeys(keys);

      outlineThickness := Round(Clamp(outlineThickness, 0.0, MaxThickness), ThicknessDigits);
      outlineThreshold := Round(Clamp(outlineThreshold, 0.0, MaxThreshold), ThresholdDigits);

      outlineParams := outlineParams[Thickness := Scalar(outlineThickness)];
      outlineParams := outlineParams[Threshold := Scalar(outlineThreshold)];

      prevKeys := keys;
    }
  }
}
