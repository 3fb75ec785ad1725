/** Decimal digits and powers, shared by the JSON number rules and the
    `%d` scanner. */
module Numerals {

  predicate IsDigit(c: char) {
    '0' <= c <= '9'
  }

  /** The value of a run of decimal digits, most significant first. */
  function DigitsValue(ds: string): nat
    decreases |ds|
  {
    if ds == [] then 0
    else DigitsValue(ds[..|ds| - 1]) * 10 + (if IsDigit(ds[|ds| - 1]) then ds[|ds| - 1] as int - '0' as int else 0)
  }

  /** base^n by squaring, so that a power with a constant exponent unfolds in
      logarithmically many steps. */
  function Pow(base: nat, n: nat): nat
    decreases n
  {
    if n == 0 then 1
    else if n % 2 == 0 then Pow(base, n / 2) * Pow(base, n / 2)
    else base * Pow(base, n - 1)
  }
}
