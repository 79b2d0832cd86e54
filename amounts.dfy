/**
 * Token amounts and their USD value. An amount is kept in smallest units; the
 * decimal text `formatUnits` makes of it is represented by the exact number it
 * denotes, so `parseFloat(formatUnits(u, d))` is `u / 10^d` and
 * `parseUnits(formatUnits(u, d), d)` is `u`.
 */
module Amounts {
  import opened Wrappers

  function Pow10(k: nat): (p: nat)
    ensures p >= 1
  {
    if k == 0 then 1 else 10 * Pow10(k - 1)
  }

  /** The token count a smallest-unit amount stands for, as `parseFloat(formatUnits(units, decimals))`. */
  function TokenAmount(units: nat, decimals: nat): (a: real)
    ensures a * (Pow10(decimals) as real) == units as real
    ensures a >= 0.0
    ensures a == 0.0 <==> units == 0
  {
    units as real / Pow10(decimals) as real
  }

  /**
   * A USD price looked up by price-feed id: `prices[id]?.usd || 0` in the
   * dust-data route, `priceMap[id] ?? 0` in the transaction card. A missing
   * id or a missing price reads as 0.
   */
  function PriceOf(prices: map<string, Option<real>>, id: string): (p: real)
    ensures id in prices && prices[id].Some? ==> p == prices[id].value
    ensures !(id in prices && prices[id].Some?) ==> p == 0.0
  {
    if id in prices && prices[id].Some? then prices[id].value else 0.0
  }

  /** The USD value of a balance: its token amount times the unit price, exactly (no floating-point rounding). */
  function UsdValue(units: nat, decimals: nat, price: real): (v: real)
    ensures price == 0.0 || units == 0 ==> v == 0.0
    ensures price >= 0.0 ==> v >= 0.0
  {
    TokenAmount(units, decimals) * price
  }
}
