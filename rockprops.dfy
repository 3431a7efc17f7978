/** Rock properties derived from drilling logs (rockprops/rockprops.py): unconfined and
    confined compressive strength, Young's modulus, porosity, permeability and mechanical
    specific energy. Every formula acts element-wise on curves. Real exponents go through `pow`,
    which the model leaves uninterpreted: it is a parameter, and only what holds for every power
    function is proved. */
module RockProps {
  import opened Wrappers
  import opened Tables

  /** `x ** e` for a real exponent. */
  type PowFn = (real, real) -> real

  datatype RockError =
    | UnknownMethod        // ValueError('Unknown method.')
    | UnboundPermeability  // UnboundLocalError: `permeability` is never assigned

  /** `math.pi` */
  const Pi: real := 3.141592653589793

  /** Gamma-ray reading above which a sample counts as shale (`gr_cutoff=65`). */
  const DefaultGrCutoff: real := 65.0

  /** `calculate_ucs`: UCS is the pump efficiency times MSE; only the method
      'pump efficiency' is known. */
  function Ucs(mse: Curve, choice: string, pumpEfficiency: real): (r: Result<Curve, RockError>)
    ensures r.Err? <==> choice != "pump efficiency"
    ensures r.Err? ==> r.error == UnknownMethod
    ensures r.Ok? ==> |r.value| == |mse|
    ensures r.Ok? ==> forall i | 0 <= i < |mse| :: r.value[i] == pumpEfficiency * mse[i]
  {
    if choice == "pump efficiency" then
      Ok(seq(|mse|, i requires 0 <= i < |mse| => pumpEfficiency * mse[i]))
    else Err(UnknownMethod)
  }

  /** With an efficiency between 0 and 1, UCS lies between 0 and the (non-negative) MSE. */
  lemma UcsBelowMse(mse: Curve, pumpEfficiency: real)
    requires 0.0 <= pumpEfficiency <= 1.0
    requires forall i | 0 <= i < |mse| :: mse[i] >= 0.0
    ensures var u := Ucs(mse, "pump efficiency", pumpEfficiency).value;
      forall i | 0 <= i < |mse| :: 0.0 <= u[i] <= mse[i]
  {
    var u := Ucs(mse, "pump efficiency", pumpEfficiency).value;
    forall i | 0 <= i < |mse| ensures 0.0 <= u[i] <= mse[i] {
      assert u[i] == pumpEfficiency * mse[i];
      assert pumpEfficiency * mse[i] <= 1.0 * mse[i];
    }
  }

  /** The pressure conversion `presdiff * 1000 * 14.7 / 101325` applied before the CCS
      correlation. */
  function DiffPresToPsi(p: real): real {
    p * 1000.0 * 14.7 / 101325.0
  }

  /** Sample `i` of `calculate_ccs`: the shale correlation iff `gr > gr_cutoff`. */
  function CcsAt(ucs: real, gr: real, presdiff: real, grCutoff: real, pow: PowFn): real {
    var p := DiffPresToPsi(presdiff);
    if gr > grCutoff then ucs * (1.0 + 0.00432 * pow(p, 0.782))
    else ucs * (1.0 + 0.0133 * pow(p, 0.577))
  }

  /** Confinement never weakens the rock: for a non-negative UCS and a power function that is
      never negative, CCS is at least UCS, on either branch. */
  lemma CcsAtLeastUcs(ucs: real, gr: real, presdiff: real, grCutoff: real, pow: PowFn)
    requires ucs >= 0.0
    requires pow(DiffPresToPsi(presdiff), 0.782) >= 0.0 && pow(DiffPresToPsi(presdiff), 0.577) >= 0.0
    ensures CcsAt(ucs, gr, presdiff, grCutoff, pow) >= ucs
  {
    var p := DiffPresToPsi(presdiff);
    if gr > grCutoff {
      assert ucs * (0.00432 * pow(p, 0.782)) >= 0.0;
    } else {
      assert ucs * (0.0133 * pow(p, 0.577)) >= 0.0;
    }
  }

  /** `out = np.zeros(n); out[mask] = onMask[mask]; out[~mask] = offMask[~mask]`: a zero array
      written through a mask, then through its complement. Each index is written exactly once,
      by the first assignment iff the mask holds there; the ghost counters record the writes of
      each assignment. */
  method MaskedFill(mask: seq<bool>, onMask: seq<real>, offMask: seq<real>)
    returns (out: seq<real>, ghost maskWrites: seq<nat>, ghost restWrites: seq<nat>)
    requires |onMask| == |mask| && |offMask| == |mask|
    ensures |out| == |mask|
    ensures forall i | 0 <= i < |mask| :: out[i] == if mask[i] then onMask[i] else offMask[i]
    ensures |maskWrites| == |mask| && |restWrites| == |mask|
    ensures forall i | 0 <= i < |mask| :: maskWrites[i] + restWrites[i] == 1
    ensures forall i | 0 <= i < |mask| :: maskWrites[i] == 1 <==> mask[i]
  {
    var n := |mask|;
    var a := new real[n](_ => 0.0);
    maskWrites := seq(n, _ => 0);
    restWrites := seq(n, _ => 0);
    var i := 0;
    while i < n
      invariant 0 <= i <= n && |maskWrites| == n && |restWrites| == n
      invariant forall j | 0 <= j < n :: a[j] == if j < i && mask[j] then onMask[j] else 0.0
      invariant forall j | 0 <= j < n :: maskWrites[j] == if j < i && mask[j] then 1 else 0
      invariant forall j | 0 <= j < n :: restWrites[j] == 0
    {
      if mask[i] {
        a[i] := onMask[i];
        maskWrites := maskWrites[i := maskWrites[i] + 1];
      }
      i := i + 1;
    }
    i := 0;
    while i < n
      invariant 0 <= i <= n && |restWrites| == n
      invariant forall j | 0 <= j < n && mask[j] :: a[j] == onMask[j]
      invariant forall j | 0 <= j < i && !mask[j] :: a[j] == offMask[j]
      invariant forall j | 0 <= j < n :: restWrites[j] == if j < i && !mask[j] then 1 else 0
    {
      if !mask[i] {
        a[i] := offMask[i];
        restWrites := restWrites[i := restWrites[i] + 1];
      }
      i := i + 1;
    }
    out := a[..];
  }

  /** `gr > gr_cutoff` */
  function ShaleMask(gr: Curve, grCutoff: real): (mask: seq<bool>)
    ensures |mask| == |gr| && forall i | 0 <= i < |gr| :: mask[i] <==> gr[i] > grCutoff
  {
    seq(|gr|, i requires 0 <= i < |gr| => gr[i] > grCutoff)
  }

  /** `calculate_ccs`: the shale correlation through the mask `gr > gr_cutoff`, the other one
      through its complement; every sample is written once, by the shale branch iff its
      gamma-ray reading exceeds the cutoff. */
  method Ccs(ucs: Curve, gr: Curve, presdiff: Curve, grCutoff: real, pow: PowFn)
    returns (ccs: Curve, ghost shaleWrites: seq<nat>, ghost otherWrites: seq<nat>)
    requires |gr| == |ucs| && |presdiff| == |ucs|
    ensures |ccs| == |ucs|
    ensures forall i | 0 <= i < |ucs| :: ccs[i] == CcsAt(ucs[i], gr[i], presdiff[i], grCutoff, pow)
    ensures |shaleWrites| == |ucs| && |otherWrites| == |ucs|
    ensures forall i | 0 <= i < |ucs| :: shaleWrites[i] + otherWrites[i] == 1
    ensures forall i | 0 <= i < |ucs| :: shaleWrites[i] == 1 <==> gr[i] > grCutoff
  {
    var n := |ucs|;
    var pd := seq(n, i requires 0 <= i < n => DiffPresToPsi(presdiff[i]));
    var shale := seq(n, i requires 0 <= i < n => ucs[i] * (1.0 + 0.00432 * pow(pd[i], 0.782)));
    var other := seq(n, i requires 0 <= i < n => ucs[i] * (1.0 + 0.0133 * pow(pd[i], 0.577)));
    ccs, shaleWrites, otherWrites := MaskedFill(ShaleMask(gr, grCutoff), shale, other);
  }

  /** `calculate_youngmodulus`: E in GPa from CCS (psi, converted to MPa) and the confining
      pressure (kPa, converted to MPa). */
  function YoungModulus(ccs: Curve, pc: Curve, pow: PowFn): (e: Curve)
    requires |pc| == |ccs|
    ensures |e| == |ccs|
    ensures forall i | 0 <= i < |ccs| :: e[i] == (ccs[i] * 0.101325 / 14.7) * 4.5396 * pow(pc[i] / 1000.0, 0.1926)
  {
    seq(|ccs|, i requires 0 <= i < |ccs| => (ccs[i] * 0.101325 / 14.7) * 4.5396 * pow(pc[i] / 1000.0, 0.1926))
  }

  /** At equal confining pressure, a stronger rock is never less stiff (for a power function
      that is never negative). */
  lemma YoungModulusMonotone(ccs1: Curve, ccs2: Curve, pc: Curve, pow: PowFn)
    requires |ccs1| == |ccs2| == |pc|
    requires forall i | 0 <= i < |pc| :: ccs1[i] <= ccs2[i] && pow(pc[i] / 1000.0, 0.1926) >= 0.0
    ensures forall i | 0 <= i < |pc| :: YoungModulus(ccs1, pc, pow)[i] <= YoungModulus(ccs2, pc, pow)[i]
  {
    forall i | 0 <= i < |pc| ensures YoungModulus(ccs1, pc, pow)[i] <= YoungModulus(ccs2, pc, pow)[i] {
      var k := 0.101325 / 14.7 * 4.5396 * pow(pc[i] / 1000.0, 0.1926);
      assert YoungModulus(ccs1, pc, pow)[i] == ccs1[i] * k;
      assert YoungModulus(ccs2, pc, pow)[i] == ccs2[i] * k;
      assert (ccs2[i] - ccs1[i]) * k >= 0.0;
    }
  }

  /** `ucs * .101325 / 14.7`, applied to every method's input. */
  function PsiToMpa(u: real): real {
    u * 0.101325 / 14.7
  }

  /** Methods 1 and 2 scale the already converted UCS a second time. */
  function Rescale(u: real): real {
    u * 101.325 / 14.7
  }

  /** The (shale, non-shale) coefficient pairs of porosity methods 1 and 2. */
  function PorosityCoefficients(choice: int): (k: (real, real, real, real))
    requires choice == 1 || choice == 2
  {
    if choice == 1 then (92.529, -0.63, 424.8, -0.825) else (88.331, -0.636, 256.25, -0.788)
  }

  /** The method-3 denominator `gr ** 0.25 * ucs ** 0.47`, UCS in MPa. */
  function Method3Denominator(ucs: real, gr: real, pow: PowFn): real {
    pow(gr, 0.25) * pow(PsiToMpa(ucs), 0.47)
  }

  /** Sample `i` of `calculate_porosity` for a known method. */
  function PorosityAt(ucs: real, gr: real, choice: int, grCutoff: real, pow: PowFn): real
    requires 1 <= choice <= 3
    requires choice == 3 ==> Method3Denominator(ucs, gr, pow) != 0.0
  {
    if choice == 3 then 1.75 / Method3Denominator(ucs, gr, pow)
    else
      var u := Rescale(PsiToMpa(ucs));
      var (k1, k2, k3, k4) := PorosityCoefficients(choice);
      (if gr > grCutoff then k1 * pow(u, k2) else k3 * pow(u, k4)) / 100.0
  }

  /** `calculate_porosity` as a value. */
  function Porosity(ucs: Curve, gr: Curve, choice: int, grCutoff: real, pow: PowFn): (r: Result<Curve, RockError>)
    requires |gr| == |ucs|
    requires choice == 3 ==> forall i | 0 <= i < |ucs| :: Method3Denominator(ucs[i], gr[i], pow) != 0.0
    ensures r.Err? <==> !(1 <= choice <= 3)
    ensures r.Err? ==> r.error == UnknownMethod
    ensures r.Ok? ==> |r.value| == |ucs|
    ensures r.Ok? ==> forall i | 0 <= i < |ucs| :: r.value[i] == PorosityAt(ucs[i], gr[i], choice, grCutoff, pow)
  {
    if 1 <= choice <= 3 then
      Ok(seq(|ucs|, i requires 0 <= i < |ucs| => PorosityAt(ucs[i], gr[i], choice, grCutoff, pow)))
    else Err(UnknownMethod)
  }

  /** Method 3 never consults the shale mask: the cutoff has no effect on it. */
  lemma PorosityMethod3IgnoresCutoff(ucs: Curve, gr: Curve, cutoff1: real, cutoff2: real, pow: PowFn)
    requires |gr| == |ucs|
    requires forall i | 0 <= i < |ucs| :: Method3Denominator(ucs[i], gr[i], pow) != 0.0
    ensures Porosity(ucs, gr, 3, cutoff1, pow) == Porosity(ucs, gr, 3, cutoff2, pow)
  {
    var a, b := Porosity(ucs, gr, 3, cutoff1, pow).value, Porosity(ucs, gr, 3, cutoff2, pow).value;
    forall i | 0 <= i < |ucs| ensures a[i] == b[i] {
      assert a[i] == PorosityAt(ucs[i], gr[i], 3, cutoff1, pow);
    }
    assert a == b;
  }

  /** Methods 1 and 2 evaluate the power at UCS scaled by both factors, i.e. by
      0.101325 * 101.325 / 14.7^2, and pick the shale pair iff `gr > gr_cutoff`. */
  lemma PorosityDoubleScaling(ucs: real, gr: real, choice: int, grCutoff: real, pow: PowFn)
    requires choice == 1 || choice == 2
    ensures var u := ucs * (0.101325 * 101.325) / (14.7 * 14.7);
      var (k1, k2, k3, k4) := PorosityCoefficients(choice);
      PorosityAt(ucs, gr, choice, grCutoff, pow)
        == (if gr > grCutoff then k1 * pow(u, k2) else k3 * pow(u, k4)) / 100.0
  {
    assert Rescale(PsiToMpa(ucs)) == ucs * (0.101325 * 101.325) / (14.7 * 14.7);
  }

  /** Method 3 is `1.75 / (gr^0.25 * ucs^0.47)` at every sample, UCS converted once from psi
      to MPa and never rescaled. */
  lemma PorosityMethod3Formula(ucs: Curve, gr: Curve, grCutoff: real, pow: PowFn)
    requires |gr| == |ucs|
    requires forall i | 0 <= i < |ucs| :: Method3Denominator(ucs[i], gr[i], pow) != 0.0
    ensures var p := Porosity(ucs, gr, 3, grCutoff, pow).value;
      forall i | 0 <= i < |ucs| :: p[i] == 1.75 / (pow(gr[i], 0.25) * pow(ucs[i] * 0.101325 / 14.7, 0.47))
  {
  }

  /** `calculate_porosity`: method 3 returns its expression directly; methods 1 and 2 fill a
      zero array through the shale mask and its complement, then divide by 100. */
  method CalculatePorosity(ucs: Curve, gr: Curve, choice: int, grCutoff: real, pow: PowFn)
    returns (r: Result<Curve, RockError>)
    requires |gr| == |ucs|
    requires choice == 3 ==> forall i | 0 <= i < |ucs| :: Method3Denominator(ucs[i], gr[i], pow) != 0.0
    ensures r == Porosity(ucs, gr, choice, grCutoff, pow)
  {
    var n := |ucs|;
    var u := seq(n, i requires 0 <= i < n => PsiToMpa(ucs[i]));
    var k1, k2, k3, k4;
    if choice == 1 {
      u := seq(n, i requires 0 <= i < n => Rescale(u[i]));
      k1, k2, k3, k4 := 92.529, -0.63, 424.8, -0.825;
    } else if choice == 2 {
      u := seq(n, i requires 0 <= i < n => Rescale(u[i]));
      k1, k2, k3, k4 := 88.331, -0.636, 256.25, -0.788;
    } else if choice == 3 {
      var p := seq(n, i requires 0 <= i < n => 1.75 / (pow(gr[i], 0.25) * pow(u[i], 0.47)));
      assert forall j | 0 <= j < n :: p[j] == PorosityAt(ucs[j], gr[j], choice, grCutoff, pow);
      assert p == Porosity(ucs, gr, choice, grCutoff, pow).value;
      return Ok(p);
    } else {
      return Err(UnknownMethod);
    }
    assert (k1, k2, k3, k4) == PorosityCoefficients(choice);
    var shale := seq(n, j requires 0 <= j < n => k1 * pow(u[j], k2));
    var other := seq(n, j requires 0 <= j < n => k3 * pow(u[j], k4));
    var porosity, _, _ := MaskedFill(ShaleMask(gr, grCutoff), shale, other);
    r := Ok(seq(n, j requires 0 <= j < n => porosity[j] / 100.0));
    assert forall j | 0 <= j < n :: u[j] == Rescale(PsiToMpa(ucs[j]));
    assert forall j | 0 <= j < n :: r.value[j] == PorosityAt(ucs[j], gr[j], choice, grCutoff, pow);
    assert r.value == Porosity(ucs, gr, choice, grCutoff, pow).value;
  }

  /** `calculate_permeability` in nD: method 1 only; any other method leaves the result
      unbound. */
  function Permeability(porosity: Curve, choice: int, pow: PowFn): (r: Result<Curve, RockError>)
    ensures r.Err? <==> choice != 1
    ensures r.Err? ==> r.error == UnboundPermeability
    ensures r.Ok? ==> |r.value| == |porosity|
    ensures r.Ok? ==> forall i | 0 <= i < |porosity| :: r.value[i] == 6.93 * pow(porosity[i] * 100.0, 2.5313)
  {
    if choice == 1 then
      Ok(seq(|porosity|, i requires 0 <= i < |porosity| => 6.93 * pow(porosity[i] * 100.0, 2.5313)))
    else Err(UnboundPermeability)
  }

  /** The unit conversions of `calculate_mse`: ROP from ft/hr to in/min, WOB from kDaN to lbf. */
  function RopToInPerMin(rop: real): real {
    rop * 12.0 / 60.0
  }

  function WobToLbf(wob: real): real {
    wob * 1000.0 * 2.2480894387096
  }

  /** `calculate_mse` in psi (Teale's equation, field units). */
  function Mse(wob: Curve, area: real, rpm: Curve, torque: Curve, rop: Curve): (mse: Curve)
    requires |rpm| == |wob| && |torque| == |wob| && |rop| == |wob|
    requires area != 0.0
    requires forall i | 0 <= i < |rop| :: rop[i] != 0.0
    ensures |mse| == |wob|
    ensures forall i | 0 <= i < |wob| ::
      mse[i] == WobToLbf(wob[i]) / area + 2.0 * Pi * rpm[i] * torque[i] / (area * RopToInPerMin(rop[i]))
  {
    seq(|wob|, i requires 0 <= i < |wob| =>
      WobToLbf(wob[i]) / area + 2.0 * Pi * rpm[i] * torque[i] / (area * RopToInPerMin(rop[i])))
  }

  /** MSE splits into a thrust part, WOB over area, and a rotary part; with positive area and
      ROP and non-negative RPM and torque, MSE is at least the thrust part, and equals it when
      the bit does not turn. */
  lemma MseAtLeastThrust(wob: Curve, area: real, rpm: Curve, torque: Curve, rop: Curve)
    requires |rpm| == |wob| && |torque| == |wob| && |rop| == |wob|
    requires area > 0.0
    requires forall i | 0 <= i < |rop| :: rop[i] > 0.0 && rpm[i] >= 0.0 && torque[i] >= 0.0
    ensures forall i | 0 <= i < |wob| :: Mse(wob, area, rpm, torque, rop)[i] >= WobToLbf(wob[i]) / area
    ensures forall i | 0 <= i < |wob| && rpm[i] == 0.0 :: Mse(wob, area, rpm, torque, rop)[i] == WobToLbf(wob[i]) / area
  {
    forall i | 0 <= i < |wob| ensures 2.0 * Pi * rpm[i] * torque[i] / (area * RopToInPerMin(rop[i])) >= 0.0 {
      var num := 2.0 * Pi * rpm[i] * torque[i];
      var den := area * RopToInPerMin(rop[i]);
      assert rpm[i] * torque[i] >= 0.0;
      assert num >= 0.0 && den > 0.0;
    }
  }

  /** A drilling rate of 60 ft/hr enters the formula as 12 in/min. */
  lemma RopConversion()
    ensures RopToInPerMin(60.0) == 12.0
  {
  }
}
