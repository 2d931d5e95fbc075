/**
 * The linear unit conversions of the backend (app.py, "UNIT CONVERSIONS").
 * Each is a multiplication or division by a positive constant, or an affine
 * map for temperatures. The model works over exact reals, so every round
 * trip below is an identity; in IEEE doubles it only holds to rounding.
 */
module Units {

  function InToM(x: real): real { x * 0.0254 }

  function FtToM(x: real): real { x * 0.3048 }

  function PsiToPa(x: real): real { x * 6894.757 }

  /** Pascals to psi: the inverse of PsiToPa. */
  function PaToPsi(x: real): (r: real)
    ensures PsiToPa(r) == x
  {
    x / 6894.757
  }

  function CfmToM3s(x: real): real { x * 0.00047194745 }

  /** Cubic metres per second to cubic feet per minute: the inverse of CfmToM3s. */
  function M3sToCfm(x: real): (r: real)
    ensures CfmToM3s(r) == x
  {
    x / 0.00047194745
  }

  function Lbft3ToKgm3(x: real): real { x * 16.0185 }

  /** kg/m^3 to lb/ft^3: the inverse of Lbft3ToKgm3. */
  function Kgm3ToLbft3(x: real): (r: real)
    ensures Lbft3ToKgm3(r) == x
  {
    x / 16.0185
  }

  /** Fahrenheit to Celsius: the inverse of CToF. */
  function FToC(f: real): (c: real)
    ensures CToF(c) == f
  {
    (f - 32.0) * 5.0 / 9.0
  }

  function CToF(c: real): real { c * 9.0 / 5.0 + 32.0 }

  function FToK(f: real): real { FToC(f) + 273.15 }

  lemma PsiRoundTrip(x: real)
    ensures PaToPsi(PsiToPa(x)) == x
    ensures PsiToPa(PaToPsi(x)) == x
  {
  }

  lemma CfmRoundTrip(x: real)
    ensures M3sToCfm(CfmToM3s(x)) == x
    ensures CfmToM3s(M3sToCfm(x)) == x
  {
  }

  lemma DensityRoundTrip(x: real)
    ensures Kgm3ToLbft3(Lbft3ToKgm3(x)) == x
    ensures Lbft3ToKgm3(Kgm3ToLbft3(x)) == x
  {
  }

  lemma TemperatureRoundTrip(x: real)
    ensures CToF(FToC(x)) == x
    ensures FToC(CToF(x)) == x
  {
  }

  /** The foot and inch factors agree: one foot is twelve inches. */
  lemma FootIsTwelveInches(x: real)
    ensures FtToM(x) == InToM(12.0 * x)
  {
  }

  /** Kelvin is Celsius shifted by 273.15: water freezes at 273.15 K and boils at 373.15 K,
      and a kelvin difference is five ninths of the Fahrenheit difference. */
  lemma KelvinScale(f: real, g: real)
    ensures FToK(f) == FToC(f) + 273.15
    ensures FToK(32.0) == 273.15 && FToK(212.0) == 373.15
    ensures FToK(f) - FToK(g) == (f - g) * 5.0 / 9.0
  {
  }
}
