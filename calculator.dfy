/**
 * The static correlation and flow functions of the well-test calculator:
 * oil API corrected to 60 degF, the separator volume-correction factor, the
 * shrinkage factor, the solution gas-oil ratio (GOR2) correlations and their
 * dispatch, the two- and three-phase rate splits and the gas-lift metrics.
 *
 * Every function here is pure. Where the source catches an exception and
 * returns a default, the model returns that default on the same condition.
 */
module WellTestCalculator {
  import opened Numerics

  /** Atmospheric pressure the source adds to turn psig into psia. */
  const AtmPsi: real := 14.7

  /** Half-hour interval volume to barrels per day. */
  const IntervalsPerDay: real := 48.0

  function CelsiusToFahrenheit(c: real): (f: real)
    ensures f <= 60.0 <==> c * 9.0 <= 140.0
  {
    c * 9.0 / 5.0 + 32.0
  }

  // ---------------------------------------------------------------------------
  // Oil API at 60 degF
  // ---------------------------------------------------------------------------

  /** API gravity corrected to 60 degF from an observation at `oilTemp` degC.
      At or below 60 degF the API is returned unchanged; above it the correction
      lowers an API above 10, raises one below 10 and leaves 10 alone. */
  function OilApi60F(oilApi: real, oilTemp: real): (r: real)
    ensures CelsiusToFahrenheit(oilTemp) <= 60.0 ==> r == oilApi
    ensures CelsiusToFahrenheit(oilTemp) > 60.0 ==>
      (r < oilApi <==> oilApi > 10.0) && (r > oilApi <==> oilApi < 10.0)
  {
    var tempF := CelsiusToFahrenheit(oilTemp);
    if tempF <= 60.0 then oilApi
    else
      oilApi - ApiCorrection(tempF - 60.0, oilApi)
  }

  /** 0.00035 * dt * (api - 10): for dt > 0 it has the sign of api - 10. */
  function ApiCorrection(deltaT: real, oilApi: real): (c: real)
    requires deltaT > 0.0
    ensures c > 0.0 <==> oilApi > 10.0
    ensures c < 0.0 <==> oilApi < 10.0
  {
    var c := 0.00035 * deltaT * (oilApi - 10.0);
    if oilApi > 10.0 then
      PositiveProduct(0.00035 * deltaT, oilApi - 10.0);
      c
    else if oilApi < 10.0 then
      PositiveProduct(0.00035 * deltaT, 10.0 - oilApi);
      assert c == -(0.00035 * deltaT * (10.0 - oilApi));
      c
    else
      c
  }

  lemma PositiveProduct(a: real, b: real)
    requires a > 0.0 && b > 0.0
    ensures a * b > 0.0
  {
  }

  // ---------------------------------------------------------------------------
  // Volume-correction factor
  // ---------------------------------------------------------------------------

  /** The exponent -(alpha * dt + beta * dt^2) of the separator VCF. */
  function VcfExponent(sepTemp: real, oilApi60F: real): (e: real)
    ensures CelsiusToFahrenheit(sepTemp) == 60.0 ==> e == 0.0
  {
    var deltaT := CelsiusToFahrenheit(sepTemp) - 60.0;
    var alpha := 0.00034878 - 0.00000091 * oilApi60F;
    var beta := 0.0000000025;
    -(alpha * deltaT + beta * (deltaT * deltaT))
  }

  /** exp of the VCF exponent; 1.0 when math.exp raises. */
  function VcfSep(p: Primitives, sepTemp: real, oilApi60F: real): (vcf: real)
    ensures Sound(p) ==> vcf > 0.0
    ensures p.exp(VcfExponent(sepTemp, oilApi60F)).None? ==> vcf == 1.0
  {
    match p.exp(VcfExponent(sepTemp, oilApi60F))
    case None => 1.0
    case Some(v) => v
  }

  /** At the 60 degF reference temperature there is nothing to correct. */
  lemma VcfAtReference(p: Primitives, sepTemp: real, oilApi60F: real)
    requires p.exp(0.0) == Some(1.0)
    requires CelsiusToFahrenheit(sepTemp) == 60.0
    ensures VcfSep(p, sepTemp, oilApi60F) == 1.0
  {
  }

  /** Above 60 degF, for any API up to 383 (where alpha stays non-negative),
      the exponent is not positive. */
  lemma VcfExponentNonPositive(sepTemp: real, oilApi60F: real)
    requires CelsiusToFahrenheit(sepTemp) >= 60.0
    requires oilApi60F <= 383.0
    ensures VcfExponent(sepTemp, oilApi60F) <= 0.0
  {
  }

  /** Under the same conditions the VCF lies in (0, 1]: the liquid is
      shrunk to its 60 degF volume, never expanded. */
  lemma VcfSepAtMostOne(p: Primitives, sepTemp: real, oilApi60F: real)
    requires Sound(p)
    requires CelsiusToFahrenheit(sepTemp) >= 60.0
    requires oilApi60F <= 383.0
    ensures 0.0 < VcfSep(p, sepTemp, oilApi60F) <= 1.0
  {
    VcfExponentNonPositive(sepTemp, oilApi60F);
  }

  // ---------------------------------------------------------------------------
  // Shrinkage factor
  // ---------------------------------------------------------------------------

  /** The base shrinkage coefficient chosen by API tier: the lightest oils
      (API above 35) get the smallest, the heaviest (below 25) the largest. */
  function ApiTierCoefficient(oilApi60F: real): (c: real)
    ensures 0.00000025 <= c <= 0.00000035
    ensures c == 0.00000025 <==> oilApi60F > 35.0
    ensures c == 0.00000035 <==> oilApi60F < 25.0
  {
    if oilApi60F > 35.0 then 0.00000025
    else if 25.0 <= oilApi60F <= 35.0 then 0.0000003
    else 0.00000035
  }

  /** The shrinkage coefficient after the low-GOR / low-pressure overrides:
      both conditions beat either one alone, low GOR beats low pressure, and
      the API tier applies only when neither condition holds. */
  function ShrinkageCoefficient(gor2: real, sepP: real, oilApi60F: real): (c: real)
    ensures gor2 < 100.0 && sepP < 50.0 ==> c == 0.00000005
    ensures gor2 < 100.0 && sepP >= 50.0 ==> c == 0.0000001
    ensures gor2 >= 100.0 && sepP < 50.0 ==> c == 0.0000002
    ensures gor2 >= 100.0 && sepP >= 50.0 ==>
      c == (if oilApi60F > 35.0 then 0.00000025
            else if oilApi60F >= 25.0 then 0.0000003
            else 0.00000035)
    ensures 0.00000005 <= c <= 0.00000035
  {
    var c := ApiTierCoefficient(oilApi60F);
    if gor2 < 100.0 && sepP < 50.0 then 0.00000005
    else if gor2 < 100.0 then 0.0000001
    else if sepP < 50.0 then 0.0000002
    else c
  }

  /** 1 - c * gor2 * sep_p. For non-negative GOR and pressure it lies in
      [1 - 3.5e-7 * gor2 * sep_p, 1], and it is exactly 1 when either is 0. */
  function ShrinkageFactor(gor2: real, sepP: real, oilApi60F: real): (sf: real)
    ensures gor2 == 0.0 || sepP == 0.0 ==> sf == 1.0
    ensures gor2 >= 0.0 && sepP >= 0.0 ==>
      1.0 - 0.00000035 * (gor2 * sepP) <= sf <= 1.0
  {
    var c := ShrinkageCoefficient(gor2, sepP, oilApi60F);
    assert c * gor2 * sepP == c * (gor2 * sepP);
    assert gor2 >= 0.0 && sepP >= 0.0 ==>
      0.0 <= c * (gor2 * sepP) <= 0.00000035 * (gor2 * sepP) by {
      if gor2 >= 0.0 && sepP >= 0.0 {
        BoundedScale(c, 0.00000035, gor2 * sepP);
      }
    }
    1.0 - c * gor2 * sepP
  }

  lemma BoundedScale(c: real, cMax: real, x: real)
    requires 0.0 <= c <= cMax && x >= 0.0
    ensures 0.0 <= c * x <= cMax * x
  {
  }

  /** The low-GOR-and-low-pressure override wins over the API tier and over
      either single condition: API 40, GOR2 50, 30 psig uses 5e-8. */
  lemma ShrinkagePrecedenceExample()
    ensures ShrinkageCoefficient(50.0, 30.0, 40.0) == 0.00000005
    ensures ShrinkageFactor(50.0, 30.0, 40.0) == 1.0 - 0.00000005 * 50.0 * 30.0
  {
  }

  // ---------------------------------------------------------------------------
  // GOR2 correlations
  // ---------------------------------------------------------------------------

  datatype VbCoefficients = VbCoefficients(c1: real, c2: real, c3: real)

  /** Vasquez-Beggs coefficients: the default set, and the set the explicit
      method uses for API <= 30. */
  const VbLight := VbCoefficients(0.0178, 1.1870, 23.931)
  const VbHeavy := VbCoefficients(0.0362, 1.0937, 25.724)

  /** sg * c1 * pAbs^c2 * exp(c3 * api / (tF + 460)); 0.0 when a power or
      exp raises or the denominator is zero. */
  function VasquezBeggsCorrelation(p: Primitives, sgGas: real, pAbs: real, oilApi60F: real,
                                   tempF: real, k: VbCoefficients): real
  {
    match p.pow(pAbs, k.c2)
    case None => 0.0
    case Some(pw) =>
      if tempF + 460.0 == 0.0 then 0.0
      else match p.exp(k.c3 * oilApi60F / (tempF + 460.0))
        case None => 0.0
        case Some(ex) => sgGas * k.c1 * pw * ex
  }

  /** sg * ((pAbs * 10^e) / 18.2)^1.204 with e = 0.0125 api - 0.00091 t. */
  function StandingCorrelation(p: Primitives, sgGas: real, pAbs: real, oilApi60F: real,
                               temp: real): real
  {
    var exponent := 0.0125 * oilApi60F - 0.00091 * temp;
    match p.pow(10.0, exponent)
    case None => 0.0
    case Some(t) =>
      match p.pow(pAbs * t / 18.2, 1.204)
      case None => 0.0
      case Some(v) => sgGas * v
  }

  /** 0.224 * sg * pAbs^1.182 * 10^e with e = 0.01245 api - 0.00091 t. */
  function KatzCorrelation(p: Primitives, sgGas: real, pAbs: real, oilApi60F: real,
                           temp: real): real
  {
    var exponent := 0.01245 * oilApi60F - 0.00091 * temp;
    match p.pow(pAbs, 1.182)
    case None => 0.0
    case Some(pw) =>
      match p.pow(10.0, exponent)
      case None => 0.0
      case Some(t) => 0.224 * sgGas * pw * t
  }

  /** The private `_vasquez_beggs`: adds 14.7 psi and converts degC to degF
      once more before evaluating the correlation. */
  function VasquezBeggs(p: Primitives, sgGas: real, sepP: real, oilApi60F: real, sepTemp: real,
                        k: VbCoefficients): (r: real)
    ensures Sound(p) && sgGas >= 0.0 && k.c1 >= 0.0 && sepP + AtmPsi >= 0.0 ==> r >= 0.0
  {
    var r := VasquezBeggsCorrelation(p, sgGas, sepP + AtmPsi, oilApi60F, CelsiusToFahrenheit(sepTemp), k);
    assert Sound(p) && sgGas >= 0.0 && sepP + AtmPsi >= 0.0 && k.c1 >= 0.0 ==> r >= 0.0 by {
      if Sound(p) && sgGas >= 0.0 && sepP + AtmPsi >= 0.0 {
        CorrelationsNonNegative(p, sgGas, oilApi60F, sepP + AtmPsi, CelsiusToFahrenheit(sepTemp));
      }
    }
    r
  }

  /** The private `_standings`: adds 14.7 psi, uses the temperature as given. */
  function Standings(p: Primitives, sgGas: real, sepP: real, oilApi60F: real, sepTemp: real): (r: real)
    ensures Sound(p) && sgGas >= 0.0 && sepP + AtmPsi >= 0.0 ==> r >= 0.0
  {
    var r := StandingCorrelation(p, sgGas, sepP + AtmPsi, oilApi60F, sepTemp);
    assert Sound(p) && sgGas >= 0.0 && sepP + AtmPsi >= 0.0 ==> r >= 0.0 by {
      if Sound(p) && sgGas >= 0.0 && sepP + AtmPsi >= 0.0 {
        CorrelationsNonNegative(p, sgGas, oilApi60F, sepP + AtmPsi, sepTemp);
      }
    }
    r
  }

  /** The private `_katz`: adds 14.7 psi, uses the temperature as given. */
  function Katz(p: Primitives, sgGas: real, sepP: real, oilApi60F: real, sepTemp: real): (r: real)
    ensures Sound(p) && sgGas >= 0.0 && sepP + AtmPsi >= 0.0 ==> r >= 0.0
  {
    var r := KatzCorrelation(p, sgGas, sepP + AtmPsi, oilApi60F, sepTemp);
    assert Sound(p) && sgGas >= 0.0 && sepP + AtmPsi >= 0.0 ==> r >= 0.0 by {
      if Sound(p) && sgGas >= 0.0 && sepP + AtmPsi >= 0.0 {
        CorrelationsNonNegative(p, sgGas, oilApi60F, sepP + AtmPsi, sepTemp);
      }
    }
    r
  }

  /** The method names `calculate_gor2` recognises. */
  predicate KnownGor2Method(gor2Method: string)
  {
    gor2Method == "API" || gor2Method == "VASQUEZ_BEGGS" || gor2Method == "STANDINGS" || gor2Method == "KATZ"
  }

  /** GOR2 by the selected method. `sepP` is in psig and `sepTemp` in degC.
      An unrecognised method gives 0.0, and so does any fault. With sound
      primitives, a non-negative gas gravity and every base of a fractional
      power non-negative (Python would produce a complex number otherwise),
      the result is never negative. */
  function CalculateGor2(p: Primitives, oilApi60F: real, sgGas: real, sepP: real, sepTemp: real,
                gor2Method: string): (r: real)
    ensures !KnownGor2Method(gor2Method) ==> r == 0.0
    ensures Sound(p) && sgGas >= 0.0 && sepP + 2.0 * AtmPsi >= 0.0 ==> r >= 0.0
  {
    var pAbs := sepP + AtmPsi;
    var tempF := CelsiusToFahrenheit(sepTemp);
    var r :=
      if gor2Method == "API" then
        if oilApi60F > 35.0 then VasquezBeggs(p, sgGas, pAbs, oilApi60F, tempF, VbLight)
        else if 25.0 <= oilApi60F <= 35.0 then Standings(p, sgGas, pAbs, oilApi60F, tempF)
        else Katz(p, sgGas, pAbs, oilApi60F, tempF)
      else if gor2Method == "VASQUEZ_BEGGS" then
        var pAbs2 := pAbs + AtmPsi;
        var tempF2 := CelsiusToFahrenheit(tempF);
        if oilApi60F <= 30.0 then VasquezBeggs(p, sgGas, pAbs2, oilApi60F, tempF2, VbHeavy)
        else VasquezBeggs(p, sgGas, pAbs2, oilApi60F, tempF2, VbLight)
      else if gor2Method == "STANDINGS" then Standings(p, sgGas, pAbs, oilApi60F, tempF)
      else if gor2Method == "KATZ" then Katz(p, sgGas, pAbs, oilApi60F, tempF)
      else 0.0;
    assert Sound(p) && sgGas >= 0.0 && sepP + 2.0 * AtmPsi >= 0.0 ==> r >= 0.0 by {
      if Sound(p) && sgGas >= 0.0 && sepP + 2.0 * AtmPsi >= 0.0 {
        CorrelationsNonNegative(p, sgGas, oilApi60F, pAbs + AtmPsi, tempF);
        CorrelationsNonNegative(p, sgGas, oilApi60F, pAbs + AtmPsi, CelsiusToFahrenheit(tempF));
        CorrelationsNonNegative(p, sgGas, oilApi60F, pAbs + 2.0 * AtmPsi,
                                CelsiusToFahrenheit(CelsiusToFahrenheit(tempF)));
      }
    }
    r
  }

  /** With sound primitives, a non-negative gravity and a non-negative absolute
      pressure, none of the three correlations is negative. */
  lemma CorrelationsNonNegative(p: Primitives, sgGas: real, oilApi60F: real, pAbs: real, temp: real)
    requires Sound(p) && sgGas >= 0.0 && pAbs >= 0.0
    ensures forall k: VbCoefficients :: k.c1 >= 0.0 ==>
      VasquezBeggsCorrelation(p, sgGas, pAbs, oilApi60F, temp, k) >= 0.0
    ensures StandingCorrelation(p, sgGas, pAbs, oilApi60F, temp) >= 0.0
    ensures KatzCorrelation(p, sgGas, pAbs, oilApi60F, temp) >= 0.0
  {
  }

  /** The 'API' method chooses the correlation by API tier. Each correlation
      then sees the separator pressure with 14.7 psi added twice (once in
      `calculate_gor2`, once in the helper); Vasquez-Beggs sees the temperature
      converted to degF twice, Standing and Katz once. */
  lemma Gor2ApiMethod(p: Primitives, oilApi60F: real, sgGas: real, sepP: real, sepTemp: real)
    ensures var r := CalculateGor2(p, oilApi60F, sgGas, sepP, sepTemp, "API");
      var pAbs := sepP + 2.0 * AtmPsi;
      var tempF := CelsiusToFahrenheit(sepTemp);
      && (oilApi60F > 35.0 ==>
            r == VasquezBeggsCorrelation(p, sgGas, pAbs, oilApi60F, CelsiusToFahrenheit(tempF), VbLight))
      && (25.0 <= oilApi60F <= 35.0 ==>
            r == StandingCorrelation(p, sgGas, pAbs, oilApi60F, tempF))
      && (oilApi60F < 25.0 ==>
            r == KatzCorrelation(p, sgGas, pAbs, oilApi60F, tempF))
  {
  }

  /** The explicit 'VASQUEZ_BEGGS' method converts once more than 'API' does:
      the correlation sees 14.7 psi added three times and the temperature
      converted to degF three times, with the heavy-oil coefficients at
      API <= 30. So at API 40 it does not evaluate the same expression as
      'API' does. */
  lemma Gor2ExplicitVasquezBeggs(p: Primitives, oilApi60F: real, sgGas: real, sepP: real, sepTemp: real)
    ensures var r := CalculateGor2(p, oilApi60F, sgGas, sepP, sepTemp, "VASQUEZ_BEGGS");
      var tempF3 := CelsiusToFahrenheit(CelsiusToFahrenheit(CelsiusToFahrenheit(sepTemp)));
      r == VasquezBeggsCorrelation(p, sgGas, sepP + 3.0 * AtmPsi, oilApi60F, tempF3,
                                   if oilApi60F <= 30.0 then VbHeavy else VbLight)
  {
  }

  /** The two Vasquez-Beggs paths really disagree at API 40: with exp
      constantly 1 and every power returning its base, 'API' yields
      0.65 * 0.0178 * 129.4 and 'VASQUEZ_BEGGS' 0.65 * 0.0178 * 144.1, for a
      separator at 100 psig and 20 degC. */
  lemma Gor2ApiDiffersFromExplicitVasquezBeggs()
    ensures var p := Primitives(x => Some(1.0), (b, e) => Some(b),
                                (hw, sp, gt, sg, d, bore, h2s, co2) => 0.0);
      && CalculateGor2(p, 40.0, 0.65, 100.0, 20.0, "API") == 0.65 * 0.0178 * 129.4
      && CalculateGor2(p, 40.0, 0.65, 100.0, 20.0, "VASQUEZ_BEGGS") == 0.65 * 0.0178 * 144.1
      && CalculateGor2(p, 40.0, 0.65, 100.0, 20.0, "API")
         != CalculateGor2(p, 40.0, 0.65, 100.0, 20.0, "VASQUEZ_BEGGS")
  {
    var p := Primitives(x => Some(1.0), (b, e) => Some(b),
                        (hw, sp, gt, sg, d, bore, h2s, co2) => 0.0);
    Gor2ApiMethod(p, 40.0, 0.65, 100.0, 20.0);
    Gor2ExplicitVasquezBeggs(p, 40.0, 0.65, 100.0, 20.0);
  }

  /** 'STANDINGS' and 'KATZ' pick their correlation regardless of API, at the
      same conditions as the 'API' method does. */
  lemma Gor2NamedMethods(p: Primitives, oilApi60F: real, sgGas: real, sepP: real, sepTemp: real)
    ensures CalculateGor2(p, oilApi60F, sgGas, sepP, sepTemp, "STANDINGS")
      == StandingCorrelation(p, sgGas, sepP + 2.0 * AtmPsi, oilApi60F, CelsiusToFahrenheit(sepTemp))
    ensures CalculateGor2(p, oilApi60F, sgGas, sepP, sepTemp, "KATZ")
      == KatzCorrelation(p, sgGas, sepP + 2.0 * AtmPsi, oilApi60F, CelsiusToFahrenheit(sepTemp))
    ensures 25.0 <= oilApi60F <= 35.0 ==>
      CalculateGor2(p, oilApi60F, sgGas, sepP, sepTemp, "API") == CalculateGor2(p, oilApi60F, sgGas, sepP, sepTemp, "STANDINGS")
    ensures oilApi60F < 25.0 ==>
      CalculateGor2(p, oilApi60F, sgGas, sepP, sepTemp, "API") == CalculateGor2(p, oilApi60F, sgGas, sepP, sepTemp, "KATZ")
  {
  }

  /** The labels the parameters form offers for two of the methods are not
      the ones `calculate_gor2` tests for, so they yield 0.0. */
  lemma Gor2FormLabels(p: Primitives, oilApi60F: real, sgGas: real, sepP: real, sepTemp: real)
    ensures CalculateGor2(p, oilApi60F, sgGas, sepP, sepTemp, "VASQUEZ BEGGS") == 0.0
    ensures CalculateGor2(p, oilApi60F, sgGas, sepP, sepTemp, "STANDING'S") == 0.0
  {
  }

  // ---------------------------------------------------------------------------
  // Phase rate splits
  // ---------------------------------------------------------------------------

  datatype Rates = Rates(qOil: real, qWater: real)

  /** Three-phase split. Water carried in the oil leg (wio) is added to the
      water rate without the meter factor; no volume gives no rate, and with
      a unit meter factor and sf * vcf = 1 the two legs add up to the whole
      measured volume. */
  function ThreePhaseFlow(vsOil: real, vsWater: real, wio: real, meterFactor: real,
                          sf: real, vcfSep: real): (q: Rates)
    ensures vsOil == 0.0 && vsWater == 0.0 ==> q.qOil == 0.0 && q.qWater == 0.0
    ensures meterFactor == 1.0 && sf * vcfSep == 1.0 ==>
      q.qOil + q.qWater == (vsOil + vsWater) * IntervalsPerDay
    ensures wio == 0.0 ==> q.qWater == vsWater * meterFactor * IntervalsPerDay
  {
    var qOil := vsOil * (1.0 - wio) * meterFactor * sf * vcfSep * IntervalsPerDay;
    var qWater := (vsWater * meterFactor + vsOil * wio) * IntervalsPerDay;
    assert qOil == vsOil * (1.0 - wio) * meterFactor * (sf * vcfSep) * IntervalsPerDay;
    Rates(qOil, qWater)
  }

  /** Two-phase split by BSW. No volume gives no rate, and with sf * vcf = 1
      the two legs add up to the metered liquid rate. */
  function TwoPhaseFlow(vsLiquid: real, bsw: real, meterFactor: real, sf: real, vcfSep: real): (q: Rates)
    ensures vsLiquid == 0.0 ==> q.qOil == 0.0 && q.qWater == 0.0
    ensures sf * vcfSep == 1.0 ==>
      q.qOil + q.qWater == vsLiquid * meterFactor * IntervalsPerDay
    ensures bsw == 0.0 ==> q.qWater == 0.0
    ensures bsw == 1.0 ==> q.qOil == 0.0
  {
    var qOil := vsLiquid * (1.0 - bsw) * meterFactor * sf * vcfSep * IntervalsPerDay;
    var qWater := vsLiquid * meterFactor * bsw * IntervalsPerDay;
    assert qOil == vsLiquid * (1.0 - bsw) * meterFactor * (sf * vcfSep) * IntervalsPerDay;
    Rates(qOil, qWater)
  }

  // ---------------------------------------------------------------------------
  // Gas lift
  // ---------------------------------------------------------------------------

  datatype GasLiftMetrics = GasLiftMetrics(formationGas: real, gor1Formation: real,
                                           totalGorFormation: real)

  /** Formation gas is the produced gas less the injected gas, floored at 0;
      its GOR is guarded against a non-positive oil rate. */
  function CalculateForGasLift(qGas: real, qGasInj: real, qOil: real, gor2: real): (m: GasLiftMetrics)
    ensures m.formationGas >= 0.0 && m.formationGas >= qGas - qGasInj
    ensures m.formationGas == 0.0 || m.formationGas == qGas - qGasInj
    ensures qOil <= 0.0 ==> m.gor1Formation == 0.0
    ensures qOil > 0.0 ==> m.gor1Formation * qOil == m.formationGas * 1000.0
    ensures m.totalGorFormation - m.gor1Formation == gor2
  {
    var formation := Max(qGas - qGasInj, 0.0);
    var gor1Formation := if qOil > 0.0 then formation * 1000.0 / qOil else 0.0;
    GasLiftMetrics(formation, gor1Formation, gor1Formation + gor2)
  }

  /** 500 MSCF/d produced against 800 injected leaves no formation gas. */
  lemma GasLiftExample(qOil: real, gor2: real)
    ensures CalculateForGasLift(500.0, 800.0, qOil, gor2).formationGas == 0.0
    ensures CalculateForGasLift(500.0, 800.0, qOil, gor2).totalGorFormation == gor2
  {
  }
}
