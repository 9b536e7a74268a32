/** The shapes the crypto components render numbers into. The digits that
    `toFixed` and `toLocaleString` produce are not modelled; what is kept is
    the choice each formatter makes (tier, suffix, scale, number of decimals,
    dollar prefix) and the number the rendering stands for. */
module Formats {

  const Thousand: real := 1000.0
  const Million: real := 1000000.0
  const Billion: real := 1000000000.0
  const Trillion: real := 1000000000000.0

  datatype Suffix = Trillions | Billions | Millions | Thousands

  /** The divisor behind each suffix letter T, B, M and K. */
  function ScaleOf(s: Suffix): real
  {
    match s
    case Trillions => Trillion
    case Billions => Billion
    case Millions => Million
    case Thousands => Thousand
  }

  /** `(n / scale).toFixed(2)` followed by the suffix letter, or
      `n.toLocaleString('de-DE')` when no tier applies. */
  datatype Amount = Scaled(scaled: real, suffix: Suffix) | Localised(value: real)

  /** The number a rendered amount stands for. */
  function ValueOf(a: Amount): real
  {
    match a
    case Scaled(scaled, suffix) => scaled * ScaleOf(suffix)
    case Localised(value) => value
  }

  /** An amount, with or without a leading "$". */
  datatype Money = Money(dollar: bool, amount: Amount)

  /** `price.toFixed(decimals)`, with or without a leading "$". */
  datatype PriceText = PriceText(dollar: bool, value: real, decimals: nat)
}
