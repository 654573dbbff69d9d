/**
 * Double-precision values as the crate sees them. A finite double is kept as its exact
 * real value; bit layout, rounding and subnormal encodings are not modelled.
 */
module Float64 {

  datatype F64 = Finite(value: real) | Infinity(negative: bool) | NaN

  /** 2^1022, so that 1 / 2^1022 is `f64::MIN_POSITIVE`, the smallest positive normal double. */
  const TWO_POW_1022: real := 44942328371557897693232629769725618340449424473557664318357520289433168951375240783177119330601884005280028469967848339414697442203604155623211857659868531094441973356216371319075554900311523529863270738021251442209537670585615720368478277635206809290837627671146574559986811484619929076208839082406056034304.0

  const MIN_POSITIVE: real := 1.0 / TWO_POW_1022

  /** `f64::MAX` = 2^1024 - 2^971. */
  const MAX: real := 179769313486231570814527423731704356798070567525844996598917476803157260780028538760589558632766878171540458953514382464234321326889464182768467546703537516986049910576551282076245490090389328944075868508455133942304583236903222948165808559332123348274797826204144723168738177180919299881250404026184124858368.0

  /** `f64::EPSILON` = 2^-52. */
  const EPSILON: real := 0.0000000000000002220446049250313080847263336181640625

  function Abs(x: real): real
  {
    if x < 0.0 then -x else x
  }

  /** `f64::is_normal`: neither zero, subnormal, infinite nor NaN. */
  predicate IsNormal(x: F64)
  {
    x.Finite? && MIN_POSITIVE <= Abs(x.value) <= MAX
  }

  /** The comparison `x > 0.0`, false for NaN. */
  predicate IsPositive(x: F64)
  {
    match x
    case Finite(v) => v > 0.0
    case Infinity(negative) => !negative
    case NaN => false
  }

  /** `(x - y).abs() < EPSILON`: the tolerance under which two frequencies are the same. */
  predicate Close(x: real, y: real)
  {
    Abs(x - y) < EPSILON
  }
}
