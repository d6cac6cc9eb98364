/** The mill price of a patch: `calculate_price_at_mill` without its position check. */
module FieldPrice {
  import opened FieldTypes

  /** The mill stands at this fixed cell, whatever the grid's size. */
  const MillX: int := 11
  const MillY: int := 0
  const PriceScale: real := 14000.0
  const DistanceDiscount: real := 0.6 / 16.9

  /** Python's one-argument `round` on the exact value: the nearest integer, a half going to the even one. */
  function RoundHalfEven(v: real): (n: int)
    ensures -0.5 <= n as real - v <= 0.5
    ensures (n as real - v == 0.5 || n as real - v == -0.5) ==> n % 2 == 0
  {
    var f := v.Floor;
    var frac := v - f as real;
    if frac < 0.5 then f
    else if frac > 0.5 then f + 1
    else if f % 2 == 0 then f
    else f + 1
  }

  /** `round(v, 2)`: the nearest multiple of 0.01, a half going to the even hundredth. */
  function Round2(v: real): real {
    RoundHalfEven(v * 100.0) as real / 100.0
  }

  /** `Round2` moves its argument by at most half a hundredth, onto a whole number of hundredths. */
  lemma Round2Properties(v: real)
    ensures -0.005 <= Round2(v) - v <= 0.005
    ensures (Round2(v) * 100.0).Floor as real == Round2(v) * 100.0
  {
    var w := v * 100.0;
    var n := RoundHalfEven(w);
    var r := Round2(v);
    assert r == n as real / 100.0;
    assert r * 100.0 == n as real;
    assert (n as real).Floor == n;
    assert r - v == (n as real - w) / 100.0;
  }

  /** Squared Euclidean distance, in cells, from `pos` to the mill. */
  function SquaredDistanceToMill(pos: Pos): (d: int)
    ensures d >= 0
    ensures d == 0 <==> pos == Pos(MillX, MillY)
  {
    (MillX - pos.x) * (MillX - pos.x) + (MillY - pos.y) * (MillY - pos.y)
  }

  /**
   * The price at the mill of a patch at `pos` holding `sugar`. `sqrt` stands for
   * `math.sqrt`, which the model does not compute: every fact proved here holds
   * whatever function is passed for it.
   */
  function PriceFormula(sqrt: real -> real, sugar: real, pos: Pos): (price: real)
    ensures sugar == 0.0 ==> price == 0.0
  {
    var distance := sqrt(SquaredDistanceToMill(pos) as real);
    Round2(PriceScale * (sugar * (1.0 - distance * DistanceDiscount)))
  }
}
