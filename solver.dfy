/**
 * The automatic tube solver of the backend (app.py, solve_tube_count):
 * payload defaulting and table lookups, the linear search for the first
 * tube count that meets the velocity and pressure-drop limits, rounding up
 * to a full rectangular array, and assembly of the result.
 *
 * The fluid property correlations and the float routines the solver calls
 * (the Haaland turbulent friction value, the square root, 10**x) are given
 * as a `Numerics` value of functions; everything else is computed here over
 * exact reals.
 */
module Solver {
  import opened Wrappers
  import opened Units
  import opened Tables
  import opened Physics
  import opened Rounding

  /** The request body: every field may be missing. */
  datatype Payload = Payload(
    aIn: Option<real>, bIn: Option<real>, lFt: Option<real>, tIn: Option<real>,
    cfm: Option<real>, tmaxF: Option<real>, fluid: Option<string>, material: Option<string>,
    vTarget: Option<real>, dpMax: Option<real>)

  /** The request body after defaulting. */
  datatype Inputs = Inputs(
    aIn: real, bIn: real, lFt: real, tIn: real, cfm: real, tmaxF: real,
    fluid: string, material: string, vTarget: real, dpMax: real)

  /** Fluid density (kg/m^3) and dynamic viscosity (Pa s) at a temperature. */
  datatype FluidState = FluidState(rho: real, mu: real)

  /**
   * The routines outside this model: the property correlation of each fluid
   * (by key, at a temperature in Fahrenheit), the Haaland turbulent friction
   * value for a Reynolds number and relative roughness, the square root, and
   * `10 ** x`.
   */
  datatype Numerics = Numerics(
    fluidProps: (string, real) -> FluidState,
    haaland: (real, real) -> real,
    sqrt: real -> real,
    pow10: real -> real)

  /** What the solver raises: KeyError on an unknown table key, ZeroDivisionError on a degenerate duct or fluid. */
  datatype SolveError = UnknownKey(key: string) | DivisionByZero

  /** Everything the search loop needs, in SI units except the two limits. */
  datatype Flow = Flow(
    cfmTotal: real, areaInner: real, dh: real, lengthM: real,
    rho: real, mu: real, relRough: real, vTargetFts: real, dpMaxPsi: real)

  /** The velocity (m/s) and pressure drop (psi) of one tube at one tube count. */
  datatype Sample = Sample(v: real, dpPsi: real)

  /** The inputs after the table lookups and the derived geometry. */
  datatype Setup = Setup(inputs: Inputs, material: Material, aM: real, bM: real, lM: real, flow: Flow)

  /** The result object returned to the client. */
  datatype Solution = Solution(
    tubeCount: nat, arrayDims: ArrayDims, velocityFts: real, deltaPPsi: real,
    totalWeightLbm: real, dhIn: real, fcGHz: real, freqs: seq<real>, seDb: seq<real>,
    materialColor: string, aIn: real, bIn: real, lFt: real, tIn: real)

  /** The search gives up after this many tubes. */
  const MaxTubes: nat := 2500

  /** Number of points of the frequency grid. */
  const FreqPoints: nat := 101

  /** `payload.get(key, default)` for every field; a missing b_in takes a_in. */
  function WithDefaults(p: Payload): (i: Inputs)
    ensures p.aIn.Some? ==> i.aIn == p.aIn.value
    ensures p.bIn.Some? ==> i.bIn == p.bIn.value
    ensures p.bIn.None? ==> i.bIn == i.aIn
    ensures p.lFt.Some? ==> i.lFt == p.lFt.value
    ensures p.tIn.Some? ==> i.tIn == p.tIn.value
    ensures p.cfm.Some? ==> i.cfm == p.cfm.value
    ensures p.tmaxF.Some? ==> i.tmaxF == p.tmaxF.value
    ensures p.fluid.Some? ==> i.fluid == p.fluid.value
    ensures p.material.Some? ==> i.material == p.material.value
    ensures p.vTarget.Some? ==> i.vTarget == p.vTarget.value
    ensures p.dpMax.Some? ==> i.dpMax == p.dpMax.value
  {
    var aIn := p.aIn.GetOr(2.0);
    Inputs(aIn, p.bIn.GetOr(aIn), p.lFt.GetOr(3.0), p.tIn.GetOr(0.125),
           p.cfm.GetOr(100.0), p.tmaxF.GetOr(100.0), p.fluid.GetOr("air"),
           p.material.GetOr("stainless_304"), p.vTarget.GetOr(200.0), p.dpMax.GetOr(1.0))
  }

  /** The literal default of every missing field. */
  lemma MissingFieldsDefault(p: Payload)
    ensures var i := WithDefaults(p);
      && (p.aIn.None? ==> i.aIn == 2.0)
      && (p.aIn.None? && p.bIn.None? ==> i.bIn == 2.0)
      && (p.lFt.None? ==> i.lFt == 3.0)
      && (p.tIn.None? ==> i.tIn == 0.125)
      && (p.cfm.None? ==> i.cfm == 100.0)
      && (p.tmaxF.None? ==> i.tmaxF == 100.0)
      && (p.fluid.None? ==> i.fluid == "air")
      && (p.material.None? ==> i.material == "stainless_304")
      && (p.vTarget.None? ==> i.vTarget == 200.0)
      && (p.dpMax.None? ==> i.dpMax == 1.0)
  {
  }

  /** The denominators of one pass of the search loop are non-zero. */
  predicate FlowDefined(fl: Flow)
  {
    fl.areaInner != 0.0 && fl.dh != 0.0 && fl.mu != 0.0
  }

  /** A setup the solver can run: the flow is defined, both sides are non-zero, and the material row and the limits are the inputs'. */
  predicate SetupDefined(st: Setup)
  {
    && FlowDefined(st.flow)
    && st.aM != 0.0 && st.bM != 0.0
    && st.inputs.material in Materials
    && st.material == Materials[st.inputs.material]
    && st.flow.vTargetFts == st.inputs.vTarget && st.flow.dpMaxPsi == st.inputs.dpMax
  }

  /**
   * The part of solve_tube_count before the search: unit conversion, fluid
   * lookup, hydraulic diameter, material lookup and relative roughness,
   * raising what the source raises, in its order. A zero viscosity raises on
   * the first pass of the loop, before any count is tried.
   */
  function Prepare(i: Inputs, num: Numerics): (r: Result<Setup, SolveError>)
    ensures r.Success? ==>
      && SetupDefined(r.value)
      && r.value.inputs == i
      && r.value.aM == InToM(i.aIn) && r.value.bM == InToM(i.bIn) && r.value.lM == FtToM(i.lFt)
    ensures r.Success? ==> var st := r.value; var fl := st.flow;
      && st.aM + st.bM != 0.0
      && fl.dh == HydraulicDiameterRect(st.aM, st.bM)
      && fl.areaInner == st.aM * st.bM
      && fl.relRough == (st.material.roughnessFt * 0.3048) / fl.dh
      && fl.rho == num.fluidProps(i.fluid, i.tmaxF).rho && fl.mu == num.fluidProps(i.fluid, i.tmaxF).mu
      && fl.cfmTotal == i.cfm && fl.lengthM == st.lM
  {
    var aM, bM, lM := InToM(i.aIn), InToM(i.bIn), FtToM(i.lFt);
    if i.fluid !in Fluids then Failure(UnknownKey(i.fluid))
    else
      var props := num.fluidProps(i.fluid, i.tmaxF);
      if aM + bM == 0.0 then Failure(DivisionByZero)
      else
        var dh := HydraulicDiameterRect(aM, bM);
        var area := aM * bM;
        var row := LookupMaterial(i.material);
        if row.None? then Failure(UnknownKey(i.material))
        else if dh == 0.0 then Failure(DivisionByZero)
        else
          HydraulicDiameterZero(aM, bM);
          var relRough := (row.value.roughnessFt * 0.3048) / dh;
          if props.mu == 0.0 then Failure(DivisionByZero)
          else
            var flow := Flow(i.cfm, area, dh, lM, props.rho, props.mu, relRough, i.vTarget, i.dpMax);
            Success(Setup(i, row.value, aM, bM, lM, flow))
  }

  /**
   * The reported hydraulic diameter (in inches) and cutoff frequency (in GHz)
   * are those of the payload's own duct: Dh of its two sides, and the TE10
   * cutoff of the wider one.
   */
  lemma SolveReportsGeometry(p: Payload, num: Numerics)
    ensures var i := WithDefaults(p); var aM, bM := InToM(i.aIn), InToM(i.bIn);
      Solve(p, num).Success? ==>
        && aM + bM != 0.0 && Max(aM, bM) != 0.0
        && Solve(p, num).value.dhIn == HydraulicDiameterRect(aM, bM) / 0.0254
        && Solve(p, num).value.fcGHz == CutoffFrequencyRect(Max(aM, bM)) / 1e9
  {
  }

  /**
   * The solver fails exactly on an unknown fluid or material key, a duct
   * with a zero side or zero perimeter, or a fluid of zero viscosity; an
   * unknown fluid is reported first, and an unknown material before a
   * zero-width duct but after a zero perimeter.
   */
  lemma PrepareErrors(i: Inputs, num: Numerics)
    ensures Prepare(i, num).Failure? <==>
      || i.fluid !in Fluids
      || i.material !in Materials
      || i.aIn + i.bIn == 0.0 || i.aIn == 0.0 || i.bIn == 0.0
      || num.fluidProps(i.fluid, i.tmaxF).mu == 0.0
    ensures i.fluid !in Fluids ==> Prepare(i, num) == Failure(UnknownKey(i.fluid))
    ensures i.fluid in Fluids && i.aIn + i.bIn != 0.0 && i.material !in Materials ==>
      Prepare(i, num) == Failure(UnknownKey(i.material))
    ensures i.fluid in Fluids && i.aIn + i.bIn == 0.0 ==> Prepare(i, num) == Failure(DivisionByZero)
    ensures Prepare(i, num).Failure? && Prepare(i, num).error.UnknownKey? ==>
      Prepare(i, num).error.key !in Fluids || Prepare(i, num).error.key !in Materials
  {
    var aM, bM := InToM(i.aIn), InToM(i.bIn);
    assert aM + bM == 0.0 <==> i.aIn + i.bIn == 0.0;
    assert i.aIn + i.bIn == 0.0 ==> InToM(i.aIn) + InToM(i.bIn) == 0.0;
    if aM + bM != 0.0 {
      HydraulicDiameterZero(aM, bM);
    }
  }

  /**
   * A duct with positive sides, known keys and a viscous fluid always gets
   * through setup, with a positive bore, hydraulic diameter and relative
   * roughness, so the turbulent friction value is only ever asked for a
   * non-negative roughness.
   */
  lemma PreparePositiveDuct(i: Inputs, num: Numerics)
    requires 0.0 < i.aIn && 0.0 < i.bIn
    requires i.fluid in Fluids && i.material in Materials
    requires num.fluidProps(i.fluid, i.tmaxF).mu != 0.0
    ensures Prepare(i, num).Success?
    ensures var fl := Prepare(i, num).value.flow;
      0.0 < fl.areaInner && 0.0 < fl.dh && 0.0 < fl.relRough
  {
    var aM, bM := InToM(i.aIn), InToM(i.bIn);
    HydraulicDiameterBetweenSides(aM, bM);
    TablesWellFormed();
    var dh := HydraulicDiameterRect(aM, bM);
    var rough := Materials[i.material].roughnessFt * 0.3048;
    assert 0.0 < rough / dh;
  }

  /** One pass of the search loop: k tubes share the total flow equally. */
  function Evaluate(fl: Flow, haaland: (real, real) -> real, k: nat): Sample
    requires FlowDefined(fl) && 1 <= k
  {
    var qEach := CfmToM3s(fl.cfmTotal / k as real);
    var v := qEach / fl.areaInner;
    var re := ReynoldsNumber(fl.rho, v, fl.dh, fl.mu);
    var f := ColebrookWhite(re, fl.relRough, haaland);
    var dpPa := DarcyDeltaP(f, fl.lengthM, fl.dh, fl.rho, v);
    Sample(v, PaToPsi(dpPa))
  }

  /** The constraint check of the search loop: velocity and pressure drop within their limits. */
  predicate Meets(fl: Flow, haaland: (real, real) -> real, k: nat)
    requires FlowDefined(fl) && 1 <= k
  {
    var s := Evaluate(fl, haaland, k);
    s.v <= FtToM(fl.vTargetFts) && s.dpPsi <= fl.dpMaxPsi
  }

  /** The first count from k up to MaxTubes that meets the limits, or MaxTubes + 1 when none does. */
  function FirstMeetingFrom(fl: Flow, haaland: (real, real) -> real, k: nat): (c: nat)
    requires FlowDefined(fl) && 1 <= k <= MaxTubes + 1
    ensures k <= c <= MaxTubes + 1
    ensures forall j :: k <= j < c ==> !Meets(fl, haaland, j)
    ensures c <= MaxTubes ==> Meets(fl, haaland, c)
    decreases MaxTubes + 1 - k
  {
    if k > MaxTubes || Meets(fl, haaland, k) then k
    else FirstMeetingFrom(fl, haaland, k + 1)
  }

  /** The count the search stops at. */
  function FirstMeeting(fl: Flow, haaland: (real, real) -> real): (c: nat)
    requires FlowDefined(fl)
    ensures 1 <= c <= MaxTubes + 1
    ensures forall j :: 1 <= j < c ==> !Meets(fl, haaland, j)
    ensures c <= MaxTubes ==> Meets(fl, haaland, c)
  {
    FirstMeetingFrom(fl, haaland, 1)
  }

  /** The stopping count is determined by minimality: the least count that meets, or the cap plus one. */
  lemma FirstMeetingUnique(fl: Flow, haaland: (real, real) -> real, c: nat)
    requires FlowDefined(fl) && 1 <= c <= MaxTubes + 1
    requires forall j :: 1 <= j < c ==> !Meets(fl, haaland, j)
    requires c <= MaxTubes ==> Meets(fl, haaland, c)
    ensures c == FirstMeeting(fl, haaland)
  {
  }

  /** The search reaches the cap exactly when no count up to MaxTubes meets the limits. */
  lemma FirstMeetingCap(fl: Flow, haaland: (real, real) -> real)
    requires FlowDefined(fl)
    ensures FirstMeeting(fl, haaland) == MaxTubes + 1 <==> forall j :: 1 <= j <= MaxTubes ==> !Meets(fl, haaland, j)
  {
    var c := FirstMeeting(fl, haaland);
    if c <= MaxTubes {
      assert Meets(fl, haaland, c);
    }
  }

  /**
   * With a positive flow through a positive bore, more tubes mean a lower
   * velocity in each, so once the velocity limit holds it holds for every
   * larger count.
   */
  lemma VelocityFallsWithCount(fl: Flow, haaland: (real, real) -> real, j: nat, k: nat)
    requires FlowDefined(fl) && 0.0 < fl.cfmTotal && 0.0 < fl.areaInner
    requires 1 <= j < k
    ensures Evaluate(fl, haaland, k).v < Evaluate(fl, haaland, j).v
    ensures Evaluate(fl, haaland, j).v <= FtToM(fl.vTargetFts) ==> Evaluate(fl, haaland, k).v <= FtToM(fl.vTargetFts)
  {
    var qj := fl.cfmTotal / j as real;
    var qk := fl.cfmTotal / k as real;
    assert qj * (j as real) == fl.cfmTotal;
    assert qk * (k as real) == fl.cfmTotal;
    assert qk < qj;
    var vj := CfmToM3s(qj) / fl.areaInner;
    var vk := CfmToM3s(qk) / fl.areaInner;
    assert vj * fl.areaInner == CfmToM3s(qj);
    assert vk * fl.areaInner == CfmToM3s(qk);
    assert vk < vj;
  }

  /** The velocity and pressure drop reported for a stopping count: those of the count when it met the limits, zero at the cap. */
  function BestSample(fl: Flow, haaland: (real, real) -> real, c: nat): Sample
    requires FlowDefined(fl) && 1 <= c
  {
    if c <= MaxTubes then Evaluate(fl, haaland, c) else Sample(0.0, 0.0)
  }

  /** The frequency grid 10^(5 + j/20) Hz for j = 0..100: 100 kHz to 10 GHz. */
  function FrequencyGrid(pow10: real -> real): (r: seq<real>)
    ensures |r| == FreqPoints
    ensures r[0] == pow10(5.0) && r[FreqPoints - 1] == pow10(10.0)
  {
    seq(FreqPoints, j => pow10(5.0 + j as real * (5.0 / 100.0)))
  }

  /** If 10^x grows with x then the grid is strictly increasing. */
  lemma FrequencyGridOrdered(pow10: real -> real)
    requires forall x, y :: x < y ==> pow10(x) < pow10(y)
    ensures forall i, j :: 0 <= i < j < FreqPoints ==> FrequencyGrid(pow10)[i] < FrequencyGrid(pow10)[j]
  {
    var g := FrequencyGrid(pow10);
    forall i, j | 0 <= i < j < FreqPoints
      ensures g[i] < g[j]
    {
      assert 5.0 + i as real * (5.0 / 100.0) < 5.0 + j as real * (5.0 / 100.0);
    }
  }

  /** The attenuation at each grid frequency, index-aligned with the grid. */
  function Attenuations(a: real, l: real, freqs: seq<real>, sqrt: real -> real): (r: seq<real>)
    requires a != 0.0
    ensures |r| == |freqs|
    ensures forall i :: 0 <= i < |freqs| ==> r[i] == SeBelowCutoffDb(a, l, freqs[i], sqrt)
  {
    seq(|freqs|, i requires 0 <= i < |freqs| => SeBelowCutoffDb(a, l, freqs[i], sqrt))
  }

  /** The part of solve_tube_count after the rounding: weight, attenuation curve and the result object. */
  function Assemble(st: Setup, num: Numerics, dims: ArrayDims, bestV: real, bestDp: real): Solution
    requires SetupDefined(st)
  {
    var rounded := dims.n * dims.m;
    var i := st.inputs;
    var perTube := TubeWeightLbm(i.aIn, i.bIn, i.tIn, i.lFt, i.material);
    var freqs := FrequencyGrid(num.pow10);
    var wide := Max(st.aM, st.bM);
    var seDb := Attenuations(wide, st.lM, freqs, num.sqrt);
    var fcHz := CutoffFrequencyRect(wide);
    Solution(rounded, dims, bestV / 0.3048, bestDp, ArrayWeight(perTube, rounded),
             st.flow.dh / 0.0254, fcHz / 1e9, freqs, seDb, st.material.color,
             i.aIn, i.bIn, i.lFt, i.tIn)
  }

  /** The weight of an array of identical tubes. */
  function ArrayWeight(perTube: real, tubes: nat): real
  {
    perTube * tubes as real
  }

  /** The result for a prepared setup: the search, the rounding of its stopping count, then the assembly. */
  function SolveFrom(st: Setup, num: Numerics): Solution
    requires SetupDefined(st)
  {
    var c := FirstMeeting(st.flow, num.haaland);
    var best := BestSample(st.flow, num.haaland, c);
    Assemble(st, num, Rectangle(c), best.v, best.dpPsi)
  }

  /** What solve_tube_count returns or raises for a payload. */
  function Solve(p: Payload, num: Numerics): Result<Solution, SolveError>
  {
    match Prepare(WithDefaults(p), num)
    case Failure(e) => Failure(e)
    case Success(st) => Success(SolveFrom(st, num))
  }

  /** solve_tube_count: searches counts 1, 2, ... up to the cap for the first that meets both limits, then rounds up. */
  method SolveTubeCount(payload: Payload, num: Numerics) returns (r: Result<Solution, SolveError>)
    ensures r == Solve(payload, num)
    ensures r.Success? ==> r.value.tubeCount == r.value.arrayDims.n * r.value.arrayDims.m
  {
    var prepared := Prepare(WithDefaults(payload), num);
    if prepared.Failure? {
      return Failure(prepared.error);
    }
    var st := prepared.value;
    var fl := st.flow;

    var tubeCount: nat := 1;
    var bestDp, bestV := 0.0, 0.0;
    while tubeCount <= MaxTubes
      invariant 1 <= tubeCount <= MaxTubes + 1
      invariant forall j :: 1 <= j < tubeCount ==> !Meets(fl, num.haaland, j)
      invariant bestDp == 0.0 && bestV == 0.0
    {
      var qEach := CfmToM3s(fl.cfmTotal / tubeCount as real);
      var v := qEach / fl.areaInner;
      var re := ReynoldsNumber(fl.rho, v, fl.dh, fl.mu);
      var f := ColebrookWhite(re, fl.relRough, num.haaland);
      var dpPa := DarcyDeltaP(f, fl.lengthM, fl.dh, fl.rho, v);
      var dpPsi := PaToPsi(dpPa);
      assert Evaluate(fl, num.haaland, tubeCount) == Sample(v, dpPsi);
      if v <= FtToM(fl.vTargetFts) && dpPsi <= fl.dpMaxPsi {
        bestDp, bestV := dpPsi, v;
        break;
      }
      tubeCount := tubeCount + 1;
    }
    FirstMeetingUnique(fl, num.haaland, tubeCount);
    assert Sample(bestV, bestDp) == BestSample(fl, num.haaland, tubeCount);
    var dims := Rectangle(tubeCount);
    r := Success(Assemble(st, num, dims, bestV, bestDp));
    AssembleShape(st, num, dims, bestV, bestDp);
  }

  /**
   * A key outside either table is an error whatever else the payload says,
   * and the payload fails exactly when its setup does.
   */
  lemma UnknownKeysFail(p: Payload, num: Numerics)
    ensures WithDefaults(p).fluid !in Fluids ==> Solve(p, num) == Failure(UnknownKey(WithDefaults(p).fluid))
    ensures WithDefaults(p).material !in Materials ==> Solve(p, num).Failure?
    ensures Solve(p, num).Failure? <==> Prepare(WithDefaults(p), num).Failure?
    ensures Solve(p, num).Success? ==> Solve(p, num).value == SolveFrom(Prepare(WithDefaults(p), num).value, num)
  {
    PrepareErrors(WithDefaults(p), num);
  }

  /**
   * The array of every result: the tube count is the product of the array
   * dimensions, the array is nearly square (m <= n, and m >= n - 1 once
   * n >= 2), and the total weight is the per-tube weight of the chosen
   * material times the rounded count.
   */
  lemma SolveArrayShape(st: Setup, num: Numerics)
    requires SetupDefined(st)
    ensures var s := SolveFrom(st, num);
      && s.tubeCount == s.arrayDims.n * s.arrayDims.m
      && 1 <= s.arrayDims.m <= s.arrayDims.n
      && (2 <= s.arrayDims.n ==> s.arrayDims.n - 1 <= s.arrayDims.m)
      && s.totalWeightLbm == TubeWeightLbm(st.inputs.aIn, st.inputs.bIn, st.inputs.tIn, st.inputs.lFt, st.inputs.material) * s.tubeCount as real
      && s.materialColor == Materials[st.inputs.material].color
      && s.aIn == st.inputs.aIn && s.bIn == st.inputs.bIn && s.lFt == st.inputs.lFt && s.tIn == st.inputs.tIn
  {
    var c := FirstMeeting(st.flow, num.haaland);
    var best := BestSample(st.flow, num.haaland, c);
    var d := Rectangle(c);
    assert SolveFrom(st, num) == Assemble(st, num, d, best.v, best.dpPsi);
    AssembleShape(st, num, d, best.v, best.dpPsi);
    AssembleWeight(st, num, d, best.v, best.dpPsi);
  }

  /** The shape of an assembled result: the tube count is the product of the array dimensions. */
  lemma AssembleShape(st: Setup, num: Numerics, dims: ArrayDims, bestV: real, bestDp: real)
    requires SetupDefined(st)
    ensures var s := Assemble(st, num, dims, bestV, bestDp);
      && s.arrayDims == dims
      && s.tubeCount == dims.n * dims.m
      && s.materialColor == Materials[st.inputs.material].color
  {
  }

  /** The weight of an assembled result: the per-tube weight times the rounded count. */
  lemma AssembleWeight(st: Setup, num: Numerics, dims: ArrayDims, bestV: real, bestDp: real)
    requires SetupDefined(st)
    ensures var s := Assemble(st, num, dims, bestV, bestDp); var i := st.inputs;
      s.totalWeightLbm == TubeWeightLbm(i.aIn, i.bIn, i.tIn, i.lFt, i.material) * s.tubeCount as real
  {
  }

  /**
   * The attenuation curve of every result has one entry per grid frequency,
   * index-aligned with it and taken at the cutoff of the wider side.
   */
  lemma SolveAttenuationCurve(st: Setup, num: Numerics)
    requires SetupDefined(st)
    ensures var s := SolveFrom(st, num);
      && |s.freqs| == |s.seDb| == FreqPoints
      && s.freqs == FrequencyGrid(num.pow10)
      && Max(st.aM, st.bM) != 0.0
      && (forall k :: 0 <= k < FreqPoints ==> s.seDb[k] == SeBelowCutoffDb(Max(st.aM, st.bM), st.lM, s.freqs[k], num.sqrt))
  {
  }

  /** With a non-negative length, the total weight is not negative. */
  lemma SolveWeightNonNegative(st: Setup, num: Numerics)
    requires SetupDefined(st) && 0.0 <= st.inputs.lFt
    ensures SolveFrom(st, num).totalWeightLbm >= 0.0
  {
    var c := FirstMeeting(st.flow, num.haaland);
    var best := BestSample(st.flow, num.haaland, c);
    AssembleWeightNonNegative(st, num, Rectangle(c), best.v, best.dpPsi);
  }

  /** The weight of an assembled result for any array is not negative when the length is not. */
  lemma AssembleWeightNonNegative(st: Setup, num: Numerics, dims: ArrayDims, bestV: real, bestDp: real)
    requires SetupDefined(st) && 0.0 <= st.inputs.lFt
    ensures Assemble(st, num, dims, bestV, bestDp).totalWeightLbm >= 0.0
  {
    var i := st.inputs;
    AssembleWeight(st, num, dims, bestV, bestDp);
    TubeWeightNonNegative(i.aIn, i.bIn, i.tIn, i.lFt, i.material);
    var a := Assemble(st, num, dims, bestV, bestDp);
    ProductNonNegative(TubeWeightLbm(i.aIn, i.bIn, i.tIn, i.lFt, i.material), a.tubeCount as real);
  }

  /** A product of two non-negative reals is non-negative. */
  lemma ProductNonNegative(x: real, y: real)
    requires 0.0 <= x && 0.0 <= y
    ensures 0.0 <= x * y
  {
  }

  /** With a non-negative length, no attenuation value is negative. */
  lemma SolveAttenuationNonNegative(st: Setup, num: Numerics)
    requires SetupDefined(st) && 0.0 <= st.inputs.lFt && st.lM == FtToM(st.inputs.lFt)
    requires forall x :: 0.0 <= x ==> 0.0 <= num.sqrt(x)
    ensures forall k :: 0 <= k < |SolveFrom(st, num).seDb| ==> SolveFrom(st, num).seDb[k] >= 0.0
  {
    SolveAttenuationCurve(st, num);
    var s := SolveFrom(st, num);
    forall k | 0 <= k < |s.seDb|
      ensures s.seDb[k] >= 0.0
    {
      SeBelowCutoffDbNonNegative(Max(st.aM, st.bM), st.lM, s.freqs[k], num.sqrt);
    }
  }

  /**
   * The array is the rectangle of the search's stopping count c, the first
   * count that meets both limits (every smaller count fails them), and the
   * reported tube count lies in [c, c + n).
   */
  lemma SolveRoundsFirstMeeting(st: Setup, num: Numerics)
    requires SetupDefined(st)
    ensures var c := FirstMeeting(st.flow, num.haaland); var s := SolveFrom(st, num);
      && s.arrayDims == Rectangle(c)
      && c <= s.tubeCount < c + s.arrayDims.n
      && (forall j :: 1 <= j < c ==> !Meets(st.flow, num.haaland, j))
      && (c <= MaxTubes ==>
            && s.velocityFts == Evaluate(st.flow, num.haaland, c).v / 0.3048
            && s.deltaPPsi == Evaluate(st.flow, num.haaland, c).dpPsi)
  {
  }

  /**
   * When some count up to the cap meets both limits, the search stops at or
   * before it, the array holds at most 2500 tubes, and the reported velocity
   * and pressure drop are within the requested limits.
   */
  lemma SolveWithinLimits(st: Setup, num: Numerics, j: nat)
    requires SetupDefined(st)
    requires 1 <= j <= MaxTubes && Meets(st.flow, num.haaland, j)
    ensures var s := SolveFrom(st, num);
      && FirstMeeting(st.flow, num.haaland) <= j
      && s.tubeCount <= MaxTubes
      && s.velocityFts <= st.inputs.vTarget
      && s.deltaPPsi <= st.inputs.dpMax
  {
    var c := FirstMeeting(st.flow, num.haaland);
    RectangleBelowCap(c);
    var e := Evaluate(st.flow, num.haaland, c);
    assert e.v <= FtToM(st.flow.vTargetFts);
    assert e.v / 0.3048 <= st.flow.vTargetFts;
  }

  /**
   * The hard cap: no count up to 2500 meets the limits exactly when the
   * result is the 51 x 50 array of 2550 tubes; then the reported velocity and
   * pressure drop are zero.
   */
  lemma SolveHardCap(st: Setup, num: Numerics)
    requires SetupDefined(st)
    ensures (forall j :: 1 <= j <= MaxTubes ==> !Meets(st.flow, num.haaland, j)) <==>
      SolveFrom(st, num).tubeCount == 2550
    ensures SolveFrom(st, num).tubeCount == 2550 ==>
      var s := SolveFrom(st, num);
      s.arrayDims == ArrayDims(51, 50) && s.velocityFts == 0.0 && s.deltaPPsi == 0.0
  {
    var c := FirstMeeting(st.flow, num.haaland);
    FirstMeetingCap(st.flow, num.haaland);
    RectangleOfCap();
    if c <= MaxTubes {
      RectangleBelowCap(c);
    }
  }
}
