/** What the tuning of Game1.Update promises over one frame and over many:
    the reset key wins, keys for one value leave the other alone, stepping
    up and back down returns to the start while no clamp intervenes, and
    holding a decrease key drives a value down to zero and keeps it there. */
module TuningProperties {
  import opened MathHelpers
  import opened ParameterController

  /** The keys Update reacts to when tuning. */
  const TuningKeys: set<Key> := {Up, Down, Left, Right, Space}

  /** Adding a whole number of grid units keeps a value on its grid. */
  lemma ShiftStaysOnGrid(x: real, digits: nat, delta: real)
    requires OnGrid(x, digits)
    requires Units(delta, digits).Floor as real == Units(delta, digits)
    ensures OnGrid(x + delta, digits)
  {
    UnitsAdd(x, delta, digits);
    WholeSum(Units(x, digits), Units(delta, digits));
  }

  lemma UnitsAdd(a: real, b: real, digits: nat)
    ensures Units(a + b, digits) == Units(a, digits) + Units(b, digits)
  {
  }

  lemma WholeSum(u: real, v: real)
    requires u.Floor as real == u && v.Floor as real == v
    ensures (u + v).Floor as real == u + v
  {
    var n := u.Floor + v.Floor;
    assert u + v == n as real;
    assert (n as real).Floor == n;
  }

  /** Steps move a settled value by whole grid units, so it stays on its grid. */
  lemma ApplyKeysStaysOnGrid(t: Tunables, keys: set<Key>)
    requires Settled(t)
    ensures OnGrid(ApplyKeys(t, keys).thickness, ThicknessDigits)
    ensures OnGrid(ApplyKeys(t, keys).threshold, ThresholdDigits)
  {
    GridFacts();
    DefaultsSettled();
    if Space !in keys {
      var dt := (if Up in keys then TStep else 0.0) - (if Down in keys then TStep else 0.0);
      var dh := (if Right in keys then HStep else 0.0) - (if Left in keys then HStep else 0.0);
      assert Units(dt, ThicknessDigits) == (if Up in keys then 1.0 else 0.0) - (if Down in keys then 1.0 else 0.0);
      assert Units(dh, ThresholdDigits) == (if Right in keys then 1.0 else 0.0) - (if Left in keys then 1.0 else 0.0);
      ShiftStaysOnGrid(t.thickness, ThicknessDigits, dt);
      ShiftStaysOnGrid(t.threshold, ThresholdDigits, dh);
      assert ApplyKeys(t, keys) == Tunables(t.thickness + dt, t.threshold + dh);
    }
  }

  /** From a settled state, a frame whose steps stay in range is exactly
      the steps: clamping and rounding then change nothing. */
  lemma StepWithinRange(t: Tunables, keys: set<Key>)
    requires Settled(t)
    requires 0.0 <= ApplyKeys(t, keys).thickness <= MaxThickness
    requires 0.0 <= ApplyKeys(t, keys).threshold <= MaxThreshold
    ensures Step(t, keys) == ApplyKeys(t, keys)
  {
    ApplyKeysStaysOnGrid(t, keys);
    SettleKeepsSettled(ApplyKeys(t, keys));
  }

  /** With no tuning key held, a settled state is left as it is. */
  lemma IdleFrameKeepsState(t: Tunables, keys: set<Key>)
    requires Settled(t)
    requires keys !! TuningKeys
    ensures Step(t, keys) == t
  {
    StepWithinRange(t, keys);
  }

  /** A second frame without tuning keys changes nothing the first produced. */
  lemma IdleFrameIdempotent(t: Tunables, keys: set<Key>, idle: set<Key>)
    requires idle !! TuningKeys
    ensures Step(Step(t, keys), idle) == Step(t, keys)
  {
    IdleFrameKeepsState(Step(t, keys), idle);
  }

  /** Holding only Up for one frame from the defaults gives 1.51. */
  lemma UpFromDefaults()
    ensures Step(Defaults, {Up}) == Tunables(1.51, 0.2)
  {
    DefaultsSettled();
    StepWithinRange(Defaults, {Up});
  }

  /** Up and Down held together cancel on a settled thickness. */
  lemma UpAndDownCancel(t: Tunables, keys: set<Key>)
    requires Settled(t)
    requires Up in keys && Down in keys && Space !in keys
    ensures Step(t, keys).thickness == t.thickness
  {
    ThicknessIgnoresThresholdKeys(t, keys, t, keys - {Left, Right});
    StepWithinRange(t, keys - {Left, Right});
  }

  /** Without the reset key, the new thickness depends only on the old
      thickness and on whether Up and Down are held. */
  lemma ThicknessIgnoresThresholdKeys(t1: Tunables, k1: set<Key>, t2: Tunables, k2: set<Key>)
    requires Space !in k1 && Space !in k2
    requires t1.thickness == t2.thickness
    requires (Up in k1 <==> Up in k2) && (Down in k1 <==> Down in k2)
    ensures Step(t1, k1).thickness == Step(t2, k2).thickness
  {
    assert ApplyKeys(t1, k1).thickness == ApplyKeys(t2, k2).thickness;
  }

  /** Without the reset key, the new threshold depends only on the old
      threshold and on whether Right and Left are held. */
  lemma ThresholdIgnoresThicknessKeys(t1: Tunables, k1: set<Key>, t2: Tunables, k2: set<Key>)
    requires Space !in k1 && Space !in k2
    requires t1.threshold == t2.threshold
    requires (Right in k1 <==> Right in k2) && (Left in k1 <==> Left in k2)
    ensures Step(t1, k1).threshold == Step(t2, k2).threshold
  {
    assert ApplyKeys(t1, k1).threshold == ApplyKeys(t2, k2).threshold;
  }

  /** The fields start with threshold 30, far above its range: unless the
      reset key is held, the first Update pulls it down to 1.0, whatever
      else is held. */
  lemma FirstUpdateSnapsThreshold(keys: set<Key>)
    requires Space !in keys
    ensures Step(Initial, keys).threshold == MaxThreshold
  {
    GridFacts();
    RoundKeepsGridValues(MaxThreshold, ThresholdDigits);
  }

  /** Running a + b is running a, then b. */
  lemma {:induction false} RunConcat(t: Tunables, a: seq<set<Key>>, b: seq<set<Key>>)
    ensures Run(t, a + b) == Run(Run(t, a), b)
    decreases |a|
  {
    if a == [] {
      assert a + b == b;
    } else {
      assert (a + b)[1..] == a[1..] + b;
      RunConcat(Step(t, a[0]), a[1..], b);
    }
  }

  /** Holding Up for n frames adds n steps while the result stays within 10. */
  lemma {:induction false} HoldUp(t: Tunables, n: nat)
    requires Settled(t)
    requires t.thickness + n as real * TStep <= MaxThickness
    ensures Run(t, Hold({Up}, n)) == Tunables(t.thickness + n as real * TStep, t.threshold)
    decreases n
  {
    if n > 0 {
      StepWithinRange(t, {Up});
      var t' := Step(t, {Up});
      assert Hold({Up}, n)[1..] == Hold({Up}, n - 1);
      HoldUp(t', n - 1);
    }
  }

  /** Holding Down for n frames removes n steps while the result stays at or above 0. */
  lemma {:induction false} HoldDown(t: Tunables, n: nat)
    requires Settled(t)
    requires t.thickness - n as real * TStep >= 0.0
    ensures Run(t, Hold({Down}, n)) == Tunables(t.thickness - n as real * TStep, t.threshold)
    decreases n
  {
    if n > 0 {
      StepWithinRange(t, {Down});
      var t' := Step(t, {Down});
      assert Hold({Down}, n)[1..] == Hold({Down}, n - 1);
      HoldDown(t', n - 1);
    }
  }

  /** n frames of Up followed by n frames of Down return to the start,
      provided the climb never reaches the clamp at 10. */
  lemma UpThenDownRoundTrip(t: Tunables, n: nat)
    requires Settled(t)
    requires t.thickness + n as real * TStep <= MaxThickness
    ensures Run(t, Hold({Up}, n) + Hold({Down}, n)) == t
  {
    RunConcat(t, Hold({Up}, n), Hold({Down}, n));
    HoldUp(t, n);
    HoldDown(Run(t, Hold({Up}, n)), n);
  }

  /** The clamp is what the round trip needs that proviso for: at the top
      of the range, Up is lost and the following Down is not. */
  lemma RoundTripLosesAtCeiling()
    ensures Run(Tunables(MaxThickness, DefaultThreshold), [{Up}, {Down}]) == Tunables(9.99, DefaultThreshold)
  {
    GridFacts();
    var t := Tunables(MaxThickness, DefaultThreshold);
    DefaultsSettled();
    RoundKeepsGridValues(MaxThickness, ThicknessDigits);
    assert Step(t, {Up}) == t;
    StepWithinRange(t, {Down});
  }

  /** Holding Left long enough brings the threshold to 0, and further
      frames of Left keep it there: it never goes below 0. */
  lemma {:induction false} HoldLeftReachesZero(t: Tunables, n: nat)
    requires Settled(t)
    requires Units(t.threshold, ThresholdDigits) <= n as real
    ensures Run(t, Hold({Left}, n)).threshold == 0.0
    decreases n
  {
    GridFacts();
    if n > 0 {
      var t' := Step(t, {Left});
      if t.threshold == 0.0 {
        RoundKeepsGridValues(0.0, ThresholdDigits);
        assert t'.threshold == 0.0;
      } else {
        assert Units(t.threshold, ThresholdDigits) >= 1.0;
        StepWithinRange(t, {Left});
      }
      assert Hold({Left}, n)[1..] == Hold({Left}, n - 1);
      HoldLeftReachesZero(t', n - 1);
    }
  }
}
