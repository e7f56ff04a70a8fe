/**
 * The parts of JavaScript number semantics the modelled arithmetic runs
 * into: division by zero yields an infinity or NaN instead of failing,
 * every comparison with NaN is false, `Math.round` rounds halves up and
 * `toFixed` rounds halves away from zero. Finite values are exact reals.
 */
module JsNumbers {

  datatype JsNumber = Finite(value: real) | PosInfinity | NegInfinity | NaN

  /** `a / b` */
  function Divide(a: real, b: real): (r: JsNumber)
    ensures b != 0.0 ==> r == Finite(a / b)
    ensures b == 0.0 ==> (r == PosInfinity <==> a > 0.0) && (r == NaN <==> a == 0.0)
  {
    if b != 0.0 then Finite(a / b)
    else if a > 0.0 then PosInfinity
    else if a < 0.0 then NegInfinity
    else NaN
  }

  /** `n * k` for a positive constant `k`. */
  function Scale(n: JsNumber, k: real): JsNumber
    requires k > 0.0
  {
    match n
    case Finite(v) => Finite(v * k)
    case _ => n
  }

  /** `n >= bound` */
  predicate AtLeast(n: JsNumber, bound: real) {
    match n
    case Finite(v) => v >= bound
    case PosInfinity => true
    case _ => false
  }

  /** `Math.round(v)`: the nearest integer, halves rounded up. */
  function MathRound(v: real): (r: int)
    ensures r as real - 0.5 <= v < r as real + 0.5
  {
    (v + 0.5).Floor
  }

  /** `parseFloat(v.toFixed(1))`: one decimal place, halves away from zero. */
  function RoundToTenth(v: real): (r: real)
    ensures -0.05 <= r - v <= 0.05
  {
    if v >= 0.0 then (v * 10.0 + 0.5).Floor as real / 10.0
    else -((-v * 10.0 + 0.5).Floor as real / 10.0)
  }

  /** `v.toFixed(0)` read back as a number: the nearest integer, halves away from zero. */
  function RoundToWhole(v: real): (r: int)
    ensures -0.5 <= r as real - v <= 0.5
  {
    if v >= 0.0 then (v + 0.5).Floor else -((-v + 0.5).Floor)
  }

  /** `parseFloat(v.toFixed(1)) >= bound` for a bound of whole tenths: `v` is within half a tenth of it or above. */
  lemma {:induction false} RoundToTenthAtLeast(v: real, tenths: int)
    requires tenths > 0
    ensures RoundToTenth(v) >= tenths as real / 10.0 <==> v * 10.0 + 0.5 >= tenths as real
  {
    if v >= 0.0 {
      var f := (v * 10.0 + 0.5).Floor;
      assert RoundToTenth(v) == f as real / 10.0;
      assert f as real / 10.0 >= tenths as real / 10.0 <==> f >= tenths;
    } else {
      var f := (-v * 10.0 + 0.5).Floor;
      assert f >= 0;
      assert RoundToTenth(v) <= 0.0;
    }
  }
}
