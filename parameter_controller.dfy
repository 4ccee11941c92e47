/** The per-frame outline tuning of Game1.Update (CelShaderExample/Game1.cs),
    stated on values: the held keys move the outline thickness and the
    edge-detection threshold by fixed steps, the reset key restores the
    defaults, and both values are then clamped to their ranges and rounded
    to 2 and 3 decimals. Game.Game1.Update is proved to compute Step. */
module ParameterController {
  import opened MathHelpers

  /** The keys of a keyboard snapshot; only the first five affect tuning. */
  datatype Key = Up | Down | Left | Right | Space | Other(code: nat)

  datatype Tunables = Tunables(thickness: real, threshold: real)

  const DefaultThickness: real := 1.5
  const DefaultThreshold: real := 0.2
  const InitialThickness: real := 1.5
  const InitialThreshold: real := 30.0
  /** Amount one frame of Up/Down moves the thickness. */
  const TStep: real := 0.01
  /** Amount one frame of Right/Left moves the threshold. */
  const HStep: real := 0.001
  const MaxThickness: real := 10.0
  const MaxThreshold: real := 1.0
  const ThicknessDigits: nat := 2
  const ThresholdDigits: nat := 3

  const Defaults := Tunables(DefaultThickness, DefaultThreshold)
  /** The values the fields hold before the first Update. */
  const Initial := Tunables(InitialThickness, InitialThreshold)

  /** What every Update leaves behind: both values in range and on their
      decimal grids. */
  predicate Settled(t: Tunables) {
    && 0.0 <= t.thickness <= MaxThickness
    && 0.0 <= t.threshold <= MaxThreshold
    && OnGrid(t.thickness, ThicknessDigits)
    && OnGrid(t.threshold, ThresholdDigits)
  }

  /** The fixed steps, in the order the statements run: Up, Down, Right, Left. */
  function ApplySteps(t: Tunables, keys: set<Key>): (r: Tunables)
    ensures (Up in keys <==> Down in keys) ==> r.thickness == t.thickness
    ensures Up in keys && Down !in keys ==> r.thickness == t.thickness + TStep
    ensures Down in keys && Up !in keys ==> r.thickness == t.thickness - TStep
    ensures (Right in keys <==> Left in keys) ==> r.threshold == t.threshold
    ensures Right in keys && Left !in keys ==> r.threshold == t.threshold + HStep
    ensures Left in keys && Right !in keys ==> r.threshold == t.threshold - HStep
  {
    var thickness := if Up in keys then t.thickness + TStep else t.thickness;
    var thickness := if Down in keys then thickness - TStep else thickness;
    var threshold := if Right in keys then t.threshold + HStep else t.threshold;
    var threshold := if Left in keys then threshold - HStep else threshold;
    Tunables(thickness, threshold)
  }

  /** The key handling: the steps, then Space, checked last, which
      overwrites whatever the steps did with the defaults. */
  function ApplyKeys(t: Tunables, keys: set<Key>): (r: Tunables)
    ensures Space in keys ==> r == Defaults
    ensures Space !in keys ==>
      t.thickness - TStep <= r.thickness <= t.thickness + TStep
      && t.threshold - HStep <= r.threshold <= t.threshold + HStep
    ensures Space !in keys && Up !in keys && Down !in keys ==> r.thickness == t.thickness
    ensures Space !in keys && Right !in keys && Left !in keys ==> r.threshold == t.threshold
  {
    if Space in keys then Defaults else ApplySteps(t, keys)
  }

  /** Clamp both values into range, then round them to their grids. */
  function Settle(t: Tunables): (r: Tunables)
    ensures Settled(r)
  {
    var thickness := Clamp(t.thickness, 0.0, MaxThickness);
    var threshold := Clamp(t.threshold, 0.0, MaxThreshold);
    GridFacts();
    RoundWithinGridBounds(thickness, ThicknessDigits, 0.0, MaxThickness);
    RoundWithinGridBounds(threshold, ThresholdDigits, 0.0, MaxThreshold);
    Tunables(Round(thickness, ThicknessDigits), Round(threshold, ThresholdDigits))
  }

  /** Clamping and rounding change nothing about values already in range
      and on their grids. */
  lemma SettleKeepsSettled(t: Tunables)
    requires Settled(t)
    ensures Settle(t) == t
  {
    RoundKeepsGridValues(t.thickness, ThicknessDigits);
    RoundKeepsGridValues(t.threshold, ThresholdDigits);
  }

  /** One frame of tuning. */
  function Step(t: Tunables, keys: set<Key>): (r: Tunables)
    ensures Settled(r)
    ensures Space in keys ==> r == Defaults
  {
    DefaultsSettled();
    Settle(ApplyKeys(t, keys))
  }

  /** Tuning over consecutive frames, one key snapshot per frame. */
  function Run(t: Tunables, frames: seq<set<Key>>): (r: Tunables)
    ensures frames != [] || Settled(t) ==> Settled(r)
    decreases |frames|
  {
    if frames == [] then t else Run(Step(t, frames[0]), frames[1..])
  }

  /** n frames with the same keys held. */
  function Hold(keys: set<Key>, n: nat): (frames: seq<set<Key>>)
    ensures |frames| == n
    ensures forall i :: 0 <= i < n ==> frames[i] == keys
  {
    if n == 0 then [] else [keys] + Hold(keys, n - 1)
  }

  lemma GridFacts()
    ensures Scale(ThicknessDigits) == 100.0 && Scale(ThresholdDigits) == 1000.0
    ensures OnGrid(0.0, ThicknessDigits) && OnGrid(MaxThickness, ThicknessDigits)
    ensures OnGrid(0.0, ThresholdDigits) && OnGrid(MaxThreshold, ThresholdDigits)
  {
    assert Pow10(2) == 100;
    assert Pow10(3) == 1000;
  }

  lemma DefaultsSettled()
    ensures Settled(Defaults)
  {
    GridFacts();
  }
}
