/**
 * The floating-point library calls the calculator leans on, kept abstract.
 *
 * The calculator works with Python floats; this model uses exact `real`
 * arithmetic and treats `math.exp`, fractional powers `x ** y` (including
 * `10 ** x`) and the orifice gas-flow equation as primitives supplied by the
 * caller. A primitive that raises in Python (OverflowError, ZeroDivisionError)
 * answers `None`; the calculator's try/except then substitutes its default.
 */
module Numerics {

  datatype Option<+T> = None | Some(value: T)

  /** The library calls the calculator makes, as functions of their arguments. */
  datatype Primitives = Primitives(
    // math.exp(x); None when Python raises OverflowError
    exp: real -> Option<real>,
    // base ** exponent for a fractional exponent; None when Python raises
    pow: (real, real) -> Option<real>,
    // WellTestCalculator.calculate_gas_flow(hw, sep_p, gas_t, sg_gas,
    // orifice_d, line_bore, h2s, co2), already including its own fall-back to 0.0
    gasFlow: (real, real, real, real, real, real, real, real) -> real
  )

  /** The only facts assumed of the primitives: exp(0) = 1, exp is positive
      and at most 1 for a non-positive argument, and a power of a
      non-negative base is non-negative. */
  ghost predicate Sound(p: Primitives)
  {
    && p.exp(0.0) == Some(1.0)
    && (forall x :: p.exp(x).Some? ==> p.exp(x).value > 0.0)
    && (forall x :: x <= 0.0 && p.exp(x).Some? ==> p.exp(x).value <= 1.0)
    && (forall b, e :: b >= 0.0 && p.pow(b, e).Some? ==> p.pow(b, e).value >= 0.0)
  }

  /** Python's max(a, b) on two numbers. */
  function Max(a: real, b: real): (m: real)
    ensures m >= a && m >= b
    ensures m == a || m == b
  {
    if a >= b then a else b
  }

  /** Python's sum() over a list of numbers, added left to right. */
  function Sum(xs: seq<real>): (s: real)
    ensures xs == [] ==> s == 0.0
    ensures |xs| == 1 ==> s == xs[0]
  {
    if xs == [] then 0.0 else Sum(xs[..|xs| - 1]) + xs[|xs| - 1]
  }
}
