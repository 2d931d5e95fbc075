/**
 * The flow and shielding formulas of the backend (app.py, "FLOW PHYSICS
 * FUNCTIONS" and tube_weight_lbm), over exact reals. The transcendental
 * pieces (the Haaland turbulent friction value, the square root in the
 * attenuation) are passed in as functions; lemmas assume only their signs.
 */
module Physics {
  import opened Tables

  /** Speed of light in vacuum, m/s. */
  const C0: real := 299792458.0

  /** The value of math.pi. */
  const PI: real := 3.141592653589793

  /** Python's two-argument `max`: the first argument unless the second is larger. */
  function Max(x: real, y: real): (r: real)
    ensures r >= x && r >= y && (r == x || r == y)
  {
    if y > x then y else x
  }

  /** Hydraulic diameter 2ab/(a+b) of a rectangular duct; a+b == 0 raises ZeroDivisionError. */
  function HydraulicDiameterRect(a: real, b: real): real
    requires a + b != 0.0
  {
    2.0 * a * b / (a + b)
  }

  /** A square duct's hydraulic diameter is its side. */
  lemma HydraulicDiameterOfSquare(a: real)
    requires a != 0.0
    ensures HydraulicDiameterRect(a, a) == a
  {
  }

  /** The hydraulic diameter is the harmonic mean of the sides: it lies between them,
      whichever side is the wider. */
  lemma HydraulicDiameterBetweenSides(a: real, b: real)
    requires 0.0 < a && 0.0 < b
    ensures a <= b ==> a <= HydraulicDiameterRect(a, b) <= b
    ensures b <= a ==> b <= HydraulicDiameterRect(a, b) <= a
    ensures HydraulicDiameterRect(a, b) == HydraulicDiameterRect(b, a)
  {
    assert HydraulicDiameterRect(a, b) == HydraulicDiameterRect(b, a);
    if a <= b {
      HarmonicMeanBounds(a, b);
    } else {
      HarmonicMeanBounds(b, a);
    }
  }

  lemma HarmonicMeanBounds(lo: real, hi: real)
    requires 0.0 < lo <= hi
    ensures lo <= HydraulicDiameterRect(lo, hi) <= hi
  {
    var n, d := 2.0 * lo * hi, lo + hi;
    assert lo * lo <= lo * hi by { MulLe(lo, hi, lo); }
    assert lo * hi <= hi * hi by { MulLe(lo, hi, hi); }
    assert lo * d == lo * lo + lo * hi && hi * d == lo * hi + hi * hi;
    QuotientBetween(n, d, lo, hi);
  }

  /** Multiplying by a positive factor keeps the order, both ways. */
  lemma MulLe(x: real, y: real, c: real)
    requires 0.0 < c
    ensures x <= y <==> x * c <= y * c
  {
    if x <= y { assert (y - x) * c >= 0.0; } else { assert (x - y) * c > 0.0; }
  }

  /** A quotient by a positive divisor lies between the bounds that its numerator lies between. */
  lemma QuotientBetween(n: real, d: real, lo: real, hi: real)
    requires 0.0 < d && lo * d <= n <= hi * d
    ensures lo <= n / d <= hi
  {
    var q := n / d;
    assert q * d == n;
    MulLe(lo, q, d);
    MulLe(q, hi, d);
  }

  /** The hydraulic diameter is zero exactly when one side is zero. */
  lemma HydraulicDiameterZero(a: real, b: real)
    requires a + b != 0.0
    ensures HydraulicDiameterRect(a, b) == 0.0 <==> a == 0.0 || b == 0.0
  {
    var dh := HydraulicDiameterRect(a, b);
    assert dh * (a + b) == 2.0 * a * b;
  }

  /** Reynolds number rho v Dh / mu; mu == 0 raises ZeroDivisionError. */
  function ReynoldsNumber(rho: real, v: real, dh: real, mu: real): real
    requires mu != 0.0
  {
    (rho * v * dh) / mu
  }

  /** For a real fluid in a real duct the Reynolds number has the sign of the velocity. */
  lemma ReynoldsSign(rho: real, v: real, dh: real, mu: real)
    requires rho > 0.0 && dh > 0.0 && mu > 0.0
    ensures ReynoldsNumber(rho, v, dh, mu) > 0.0 <==> v > 0.0
    ensures ReynoldsNumber(rho, v, dh, mu) == 0.0 <==> v == 0.0
  {
    var re := ReynoldsNumber(rho, v, dh, mu);
    assert re * mu == rho * dh * v;
    assert rho * dh > 0.0;
  }

  /**
   * Friction factor: 0.02 for a non-positive Reynolds number, 64/Re in the
   * laminar range, and otherwise the Haaland value, given by `haaland`.
   */
  function ColebrookWhite(re: real, relRough: real, haaland: (real, real) -> real): real
  {
    if re <= 0.0 then 0.02
    else if re < 2300.0 then 64.0 / re
    else haaland(re, relRough)
  }

  /** The three regimes of the friction factor; in the laminar one f Re = 64, so f exceeds 64/2300. */
  lemma FrictionRegimes(re: real, relRough: real, haaland: (real, real) -> real)
    ensures re <= 0.0 ==> ColebrookWhite(re, relRough, haaland) == 0.02
    ensures 0.0 < re < 2300.0 ==>
      ColebrookWhite(re, relRough, haaland) * re == 64.0 && ColebrookWhite(re, relRough, haaland) > 64.0 / 2300.0
    ensures 2300.0 <= re ==> ColebrookWhite(re, relRough, haaland) == haaland(re, relRough)
  {
    if 0.0 < re < 2300.0 {
      var f := 64.0 / re;
      assert f * re == 64.0;
      assert f * 2300.0 > f * re;
    }
  }

  /** The friction factor is positive whenever the turbulent value is. */
  lemma FrictionPositive(re: real, relRough: real, haaland: (real, real) -> real)
    requires forall x, y :: 2300.0 <= x ==> haaland(x, y) > 0.0
    ensures ColebrookWhite(re, relRough, haaland) > 0.0
  {
  }

  /** Darcy-Weisbach pressure loss f (L/Dh) (rho v^2 / 2), in Pa. */
  function DarcyDeltaP(f: real, l: real, dh: real, rho: real, v: real): real
    requires dh != 0.0
  {
    f * (l / dh) * (rho * (v * v) / 2.0)
  }

  /** The loss is non-negative for physical inputs, does not depend on the flow direction,
      and is proportional to the duct length. */
  lemma DarcyDeltaPProperties(f: real, l: real, dh: real, rho: real, v: real, c: real)
    requires dh != 0.0
    ensures f >= 0.0 && l >= 0.0 && dh > 0.0 && rho >= 0.0 ==> DarcyDeltaP(f, l, dh, rho, v) >= 0.0
    ensures DarcyDeltaP(f, l, dh, rho, -v) == DarcyDeltaP(f, l, dh, rho, v)
    ensures DarcyDeltaP(f, c * l, dh, rho, v) == c * DarcyDeltaP(f, l, dh, rho, v)
  {
    var q := rho * (v * v) / 2.0;
    assert (-v) * (-v) == v * v;
    assert (c * l) / dh == c * (l / dh);
    if f >= 0.0 && l >= 0.0 && dh > 0.0 && rho >= 0.0 {
      assert q >= 0.0;
      assert l / dh >= 0.0;
      assert f * (l / dh) >= 0.0;
    }
  }

  /** TE10 cutoff frequency C0/(2a) of a rectangular guide of width a, in Hz. */
  function CutoffFrequencyRect(a: real): real
    requires a != 0.0
  {
    C0 / (2.0 * a)
  }

  /** The cutoff wavelength C0/fc is twice the width, and a wider guide cuts off lower. */
  lemma CutoffWavelength(a: real, b: real)
    requires 0.0 < a
    ensures CutoffFrequencyRect(a) > 0.0
    ensures C0 / CutoffFrequencyRect(a) == 2.0 * a
    ensures a < b ==> CutoffFrequencyRect(b) < CutoffFrequencyRect(a)
  {
    var fa := CutoffFrequencyRect(a);
    assert fa * (2.0 * a) == C0;
    if a < b {
      var fb := CutoffFrequencyRect(b);
      assert fb * (2.0 * b) == C0;
      assert fb * (2.0 * a) < fb * (2.0 * b);
    }
  }

  /**
   * Attenuation in dB of a guide of width a and length l at frequency f:
   * zero at or above the cutoff, otherwise 8.686 alpha l with
   * alpha = sqrt(max(kc^2 - k^2, 0)).
   */
  function SeBelowCutoffDb(a: real, l: real, f: real, sqrt: real -> real): real
    requires a != 0.0
  {
    var fc := CutoffFrequencyRect(a);
    if f >= fc then 0.0
    else
      var kc := 2.0 * PI * fc / C0;
      var k := 2.0 * PI * f / C0;
      var alpha := sqrt(Max(kc * kc - k * k, 0.0));
      8.686 * alpha * l
  }

  /** The sign facts about the square root that the model relies on. */
  ghost predicate SqrtSigns(sqrt: real -> real)
  {
    && (forall x :: 0.0 <= x ==> 0.0 <= sqrt(x))
    && (forall x :: 0.0 < x ==> 0.0 < sqrt(x))
  }

  /** Attenuation is zero at or above the cutoff and never negative for a non-negative length. */
  lemma SeBelowCutoffDbNonNegative(a: real, l: real, f: real, sqrt: real -> real)
    requires a != 0.0 && 0.0 <= l
    requires forall x :: 0.0 <= x ==> 0.0 <= sqrt(x)
    ensures f >= CutoffFrequencyRect(a) ==> SeBelowCutoffDb(a, l, f, sqrt) == 0.0
    ensures SeBelowCutoffDb(a, l, f, sqrt) >= 0.0
  {
    var fc := CutoffFrequencyRect(a);
    if f < fc {
      var kc := 2.0 * PI * fc / C0;
      var k := 2.0 * PI * f / C0;
      var alpha := sqrt(Max(kc * kc - k * k, 0.0));
      assert alpha >= 0.0;
      assert 8.686 * alpha >= 0.0;
    }
  }

  /** For a guide of positive length and a non-negative frequency, the attenuation is
      positive exactly below the cutoff. */
  lemma SeBelowCutoffDbPositiveIff(a: real, l: real, f: real, sqrt: real -> real)
    requires a != 0.0 && 0.0 < l && 0.0 <= f
    requires SqrtSigns(sqrt)
    ensures SeBelowCutoffDb(a, l, f, sqrt) > 0.0 <==> f < CutoffFrequencyRect(a)
  {
    var fc := CutoffFrequencyRect(a);
    if f < fc {
      var kc := 2.0 * PI * fc / C0;
      var k := 2.0 * PI * f / C0;
      assert 0.0 <= k < kc;
      assert k * k <= k * kc < kc * kc;
      var alpha := sqrt(Max(kc * kc - k * k, 0.0));
      assert alpha > 0.0;
      assert 8.686 * alpha > 0.0;
    }
  }

  /**
   * Weight in lbm of one tube with bore a x b inches, wall t inches and
   * length l feet, from the wall cross-section (clamped at zero) times the
   * material density.
   */
  function TubeWeightLbm(a: real, b: real, t: real, l: real, material: string): real
    requires material in Materials
  {
    var aOut := a + 2.0 * t;
    var bOut := b + 2.0 * t;
    var areaOut := (aOut / 12.0) * (bOut / 12.0);
    var areaIn := (a / 12.0) * (b / 12.0);
    var wallArea := Max(0.0, areaOut - areaIn);
    var vol := wallArea * l;
    vol * Materials[material].densityLbft3
  }

  /** A tube never weighs less than nothing when its length is non-negative. */
  lemma TubeWeightNonNegative(a: real, b: real, t: real, l: real, material: string)
    requires material in Materials && 0.0 <= l
    ensures TubeWeightLbm(a, b, t, l, material) >= 0.0
  {
    TablesWellFormed();
    var aOut := a + 2.0 * t;
    var bOut := b + 2.0 * t;
    var wallArea := Max(0.0, (aOut / 12.0) * (bOut / 12.0) - (a / 12.0) * (b / 12.0));
    assert wallArea * l >= 0.0;
  }

  /** For a real tube the clamp is inactive: the weight is the wall ring's area
      t (2a + 2b + 4t) / 144 ft^2 times length times density. */
  lemma TubeWeightOfWall(a: real, b: real, t: real, l: real, material: string)
    requires material in Materials && 0.0 <= a && 0.0 <= b && 0.0 <= t
    ensures TubeWeightLbm(a, b, t, l, material)
         == t * (2.0 * a + 2.0 * b + 4.0 * t) / 144.0 * l * Materials[material].densityLbft3
  {
    var aOut := a + 2.0 * t;
    var bOut := b + 2.0 * t;
    var diff := (aOut / 12.0) * (bOut / 12.0) - (a / 12.0) * (b / 12.0);
    assert diff == t * (2.0 * a + 2.0 * b + 4.0 * t) / 144.0;
    assert t * (2.0 * a + 2.0 * b + 4.0 * t) >= 0.0;
  }
}
