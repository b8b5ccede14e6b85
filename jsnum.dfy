/** The part of JavaScript's number type the core depends on: a finite real
    value or NaN. Every ordered comparison with NaN is false. */
module JsNumber {

  datatype Num = NaN | Fin(v: real)

  predicate IsNaN(n: Num) { n.NaN? }

  /** `n <= c` in JavaScript. */
  predicate AtMost(n: Num, c: real) { n.Fin? && n.v <= c }

  /** `lo <= n && n <= hi` in JavaScript: false for NaN. */
  predicate InRange(n: Num, lo: real, hi: real) { n.Fin? && lo <= n.v <= hi }

  /** `(a + b) / 2`: NaN is absorbing. */
  function Mean2(a: Num, b: Num): (r: Num)
    ensures r.NaN? <==> a.NaN? || b.NaN?
  {
    if a.Fin? && b.Fin? then Fin((a.v + b.v) / 2.0) else NaN
  }

  function Min(a: real, b: real): real { if a <= b then a else b }
  function Max(a: real, b: real): real { if a >= b then a else b }
  function Abs(a: real): real { if a < 0.0 then -a else a }

  /** `Math.max(0, Math.min(1, v))`. */
  function Clamp01(v: real): (r: real)
    ensures 0.0 <= r <= 1.0
    ensures 0.0 <= v <= 1.0 ==> r == v
  {
    Max(0.0, Min(1.0, v))
  }

  /** `Math.round`: halves round towards positive infinity. */
  function Round(x: real): (r: int)
    ensures x - 0.5 < r as real <= x + 0.5
  {
    (x + 0.5).Floor
  }

  /** `parseFloat(x.toFixed(2))`, taken as rounding half up to two decimals. */
  function Round2(x: real): (r: real)
    ensures x - 0.005 < r <= x + 0.005
  {
    Round(x * 100.0) as real / 100.0
  }

  /** `parseFloat(x.toFixed(1))`, taken as rounding half up to one decimal. */
  function Round1(x: real): (r: real)
    ensures x - 0.05 < r <= x + 0.05
  {
    Round(x * 10.0) as real / 10.0
  }
}
