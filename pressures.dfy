/** Downhole pressures (rockprops/pressures.py): hydrostatic pressure from mud weight and depth,
    frozen below the kick-off point, and the confining pressure. */
module Pressures {
  import opened Wrappers
  import opened Tables

  datatype PressureError =
    | NoCalmSample  // IndexError: `Ph[~kick_off][-1]` when every sample is past kick-off

  /** `inclination_threshold=90` (degrees). */
  const DefaultInclinationThreshold: real := 90.0

  /** Kick-off is strict: a sample exactly at the threshold is computed normally. */
  predicate KickOff(inclination: real, threshold: real) {
    inclination > threshold
  }

  predicate HasCalmSample(inclination: Curve, threshold: real) {
    exists i | 0 <= i < |inclination| :: !KickOff(inclination[i], threshold)
  }

  /** The highest index that is not past kick-off: the position `Ph[~kick_off][-1]` reads. */
  function LastCalm(inclination: Curve, threshold: real): (i: nat)
    requires HasCalmSample(inclination, threshold)
    ensures i < |inclination| && !KickOff(inclination[i], threshold)
    ensures forall j | i < j < |inclination| :: KickOff(inclination[j], threshold)
    decreases |inclination|
  {
    var n := |inclination| - 1;
    if !KickOff(inclination[n], threshold) then n
    else
      assert forall j | 0 <= j < n :: inclination[..n][j] == inclination[j];
      LastCalm(inclination[..n], threshold)
  }

  /** `0.052 * mudweight * depth`: no conversion to kPa is applied. */
  function Gradient(mudweight: real, depth: real): real {
    0.052 * mudweight * depth
  }

  /** `hydsta_pres` as a value. */
  function Hydrostatic(mudweight: real, depth: Curve, inclination: Curve, threshold: real): (r: Result<Curve, PressureError>)
    requires |inclination| == |depth|
    ensures r.Ok? <==> HasCalmSample(inclination, threshold)
    ensures r.Err? ==> r.error == NoCalmSample
    ensures r.Ok? ==> |r.value| == |depth|
    ensures r.Ok? ==> forall i | 0 <= i < |depth| && !KickOff(inclination[i], threshold) ::
      r.value[i] == Gradient(mudweight, depth[i])
    ensures r.Ok? ==> forall i | 0 <= i < |depth| && KickOff(inclination[i], threshold) ::
      r.value[i] == Gradient(mudweight, depth[LastCalm(inclination, threshold)])
  {
    if HasCalmSample(inclination, threshold) then
      var frozen := Gradient(mudweight, depth[LastCalm(inclination, threshold)]);
      Ok(seq(|depth|, i requires 0 <= i < |depth| =>
        if KickOff(inclination[i], threshold) then frozen else Gradient(mudweight, depth[i])))
    else Err(NoCalmSample)
  }

  /** `hydsta_pres(mudweight, depth, inclination, inclination_threshold)`: computes the
      pressure at every sample, reads the pressure at the last sample before kick-off, then
      overwrites every kick-off sample with it in place. */
  method HydstaPres(mudweight: real, depth: Curve, inclination: Curve, threshold: real)
    returns (r: Result<Curve, PressureError>)
    requires |inclination| == |depth|
    ensures r == Hydrostatic(mudweight, depth, inclination, threshold)
  {
    var n := |depth|;
    var ph := new real[n](i requires 0 <= i < n => Gradient(mudweight, depth[i]));
    // Ph[~kick_off][-1]: scan for the last sample that is not past kick-off
    var last := -1;
    var i := 0;
    while i < n
      invariant 0 <= i <= n && -1 <= last < i
      invariant last >= 0 ==> !KickOff(inclination[last], threshold)
      invariant forall j | last < j < i :: KickOff(inclination[j], threshold)
    {
      if !KickOff(inclination[i], threshold) {
        last := i;
      }
      i := i + 1;
    }
    if last < 0 {
      return Err(NoCalmSample);
    }
    assert last == LastCalm(inclination, threshold) by {
      var k := LastCalm(inclination, threshold);
      assert !(k > last) && !(k < last);
    }
    var frozen := ph[last];
    i := 0;
    while i < n
      invariant 0 <= i <= n
      invariant forall j | 0 <= j < n :: ph[j] == if j < i && KickOff(inclination[j], threshold) then frozen else Gradient(mudweight, depth[j])
    {
      if KickOff(inclination[i], threshold) {
        ph[i] := frozen;
      }
      i := i + 1;
    }
    r := Ok(ph[..]);
    assert r.value == Hydrostatic(mudweight, depth, inclination, threshold).value;
  }

  /** Without kick-off samples the pressure is the plain gradient at every depth. */
  lemma NoKickOffIsGradient(mudweight: real, depth: Curve, inclination: Curve, threshold: real)
    requires |inclination| == |depth| && |depth| > 0
    requires forall i | 0 <= i < |depth| :: !KickOff(inclination[i], threshold)
    ensures Hydrostatic(mudweight, depth, inclination, threshold)
      == Ok(seq(|depth|, i requires 0 <= i < |depth| => Gradient(mudweight, depth[i])))
  {
    assert !KickOff(inclination[0], threshold);
    var p := Hydrostatic(mudweight, depth, inclination, threshold).value;
    assert forall i | 0 <= i < |depth| :: p[i] == Gradient(mudweight, depth[i]);
    assert p == seq(|depth|, i requires 0 <= i < |depth| => Gradient(mudweight, depth[i]));
  }

  /** Every kick-off sample carries one and the same pressure, the one at the last sample before
      kick-off, even when that sample lies after some kick-off samples. */
  lemma KickOffFrozen(mudweight: real, depth: Curve, inclination: Curve, threshold: real, i: nat)
    requires |inclination| == |depth| && HasCalmSample(inclination, threshold)
    requires i < |depth| && KickOff(inclination[i], threshold)
    ensures var p := Hydrostatic(mudweight, depth, inclination, threshold).value;
      p[i] == p[LastCalm(inclination, threshold)] == Gradient(mudweight, depth[LastCalm(inclination, threshold)])
  {
  }

  /** When the kick-off samples form the tail of the well and depth never decreases, a
      non-negative mud weight gives a pressure curve that never decreases either. */
  lemma {:induction false} MonotoneBeforeKickOff(mudweight: real, depth: Curve, inclination: Curve, threshold: real)
    requires |inclination| == |depth| && HasCalmSample(inclination, threshold)
    requires mudweight >= 0.0
    requires forall i, j | 0 <= i < j < |depth| :: depth[i] <= depth[j]
    requires forall i, j | 0 <= i < j < |depth| && KickOff(inclination[i], threshold) :: KickOff(inclination[j], threshold)
    ensures var p := Hydrostatic(mudweight, depth, inclination, threshold).value;
      forall i, j | 0 <= i < j < |depth| :: p[i] <= p[j]
  {
    var p := Hydrostatic(mudweight, depth, inclination, threshold).value;
    var k := LastCalm(inclination, threshold);
    forall i, j | 0 <= i < j < |depth| ensures p[i] <= p[j] {
      if KickOff(inclination[j], threshold) {
        if !KickOff(inclination[i], threshold) {
          assert i <= k;
          GradientMonotone(mudweight, depth[i], depth[k]);
        }
      } else {
        assert !KickOff(inclination[i], threshold);
        GradientMonotone(mudweight, depth[i], depth[j]);
      }
    }
  }

  lemma GradientMonotone(mudweight: real, d1: real, d2: real)
    requires mudweight >= 0.0 && d1 <= d2
    ensures Gradient(mudweight, d1) <= Gradient(mudweight, d2)
  {
    var diff := d2 - d1;
    assert mudweight * diff >= 0.0;
    assert Gradient(mudweight, d2) - Gradient(mudweight, d1) == 0.052 * (mudweight * diff);
  }

  /** `conf_pres`: the element-wise sum of hydrostatic and differential pressure. */
  function ConfPres(hydrostatic: Curve, diffPres: Curve): (pc: Curve)
    requires |diffPres| == |hydrostatic|
    ensures |pc| == |hydrostatic|
  {
    seq(|hydrostatic|, i requires 0 <= i < |hydrostatic| => hydrostatic[i] + diffPres[i])
  }

  /** Subtracting the hydrostatic pressure from the confining pressure gives back the
      differential pressure. */
  lemma ConfPresRecoversDiff(hydrostatic: Curve, diffPres: Curve)
    requires |diffPres| == |hydrostatic|
    ensures var pc := ConfPres(hydrostatic, diffPres);
      forall i | 0 <= i < |pc| :: pc[i] - hydrostatic[i] == diffPres[i]
  {
  }
}
