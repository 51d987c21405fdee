/**
 * The order service's selling price (calculateSellPrice in
 * src/services/product.service.js): a percentage markup on the supplier's
 * price, then either rounding up to a multiple of 10 or rounding to cents.
 * Prices are exact reals here; the environment variables are parameters.
 */
module OrdPricing {
  import opened Common

  const PercentMarkup := "percent_markup"
  const ToTen := "to_10"
  const DefaultMarkup: real := 15.0

  /** The settings after `process.env.X || default`. */
  datatype PricingConfig = PricingConfig(mode: string, markup: real, rounding: string)

  /**
   * An unset or empty variable takes its default; `markupEnv` is the parsed
   * `PRICING_VALUE`, absent when the variable is unset or empty.
   */
  function ConfigFrom(modeEnv: string, markupEnv: Option<real>, roundingEnv: string): (c: PricingConfig)
    ensures c.mode == (if modeEnv == [] then PercentMarkup else modeEnv)
    ensures c.markup == (if markupEnv.None? then DefaultMarkup else markupEnv.value)
    ensures c.rounding == (if roundingEnv == [] then ToTen else roundingEnv)
  {
    PricingConfig(if modeEnv == [] then PercentMarkup else modeEnv,
                  if markupEnv.None? then DefaultMarkup else markupEnv.value,
                  if roundingEnv == [] then ToTen else roundingEnv)
  }

  /** `Math.ceil`. */
  function Ceil(x: real): (r: int)
    ensures x <= r as real < x + 1.0
  {
    -((-x).Floor)
  }

  /** `Math.ceil(x / 10) * 10`: the least multiple of 10 not below `x`. */
  function CeilTen(x: real): (r: int)
    ensures r % 10 == 0 && x <= r as real && (r - 10) as real < x
  {
    10 * Ceil(x / 10.0)
  }

  /** `Math.round(x * 100) / 100`; `Math.round` rounds halves up. */
  function RoundCents(x: real): (r: real)
    ensures (r * 100.0).Floor as real == r * 100.0
    ensures x - 0.005 < r <= x + 0.005
  {
    (x * 100.0 + 0.5).Floor as real / 100.0
  }

  /** Step 1: the configured percentage in `percent_markup` mode, 15% in any other mode. */
  function MarkedUp(buyPrice: real, c: PricingConfig): real {
    if c.mode == PercentMarkup then buyPrice * (1.0 + c.markup / 100.0) else buyPrice * (1.0 + 15.0 / 100.0)
  }

  /** `calculateSellPrice`; an absent `buyPrice` is a value that is not a number. */
  function SellPrice(buyPrice: Option<real>, c: PricingConfig): (r: real)
    ensures buyPrice.None? || buyPrice.value <= 0.0 ==> r == 0.0
    ensures buyPrice.Some? && buyPrice.value > 0.0 && c.rounding == ToTen ==>
      r == CeilTen(MarkedUp(buyPrice.value, c)) as real
    ensures buyPrice.Some? && buyPrice.value > 0.0 && c.rounding != ToTen ==>
      r == RoundCents(MarkedUp(buyPrice.value, c))
  {
    if buyPrice.None? || buyPrice.value <= 0.0 then 0.0
    else
      var calculated := MarkedUp(buyPrice.value, c);
      if c.rounding == ToTen then CeilTen(calculated) as real else RoundCents(calculated)
  }

  /** With nothing configured, a positive price is marked up 15% and rounded up to a multiple of 10. */
  lemma DefaultPricing(buyPrice: real)
    requires buyPrice > 0.0
    ensures SellPrice(Some(buyPrice), ConfigFrom([], None, [])) == CeilTen(buyPrice * 1.15) as real
  {
  }

  /** The two examples of rounding up: 1142.5 and 1148 both become 1150. */
  lemma RoundingExamples()
    ensures CeilTen(1142.5) == 1150 && CeilTen(1148.0) == 1150
  {
    assert 1140 < CeilTen(1142.5) <= 1150;
    assert 1140 < CeilTen(1148.0) <= 1150;
  }

  /** A mode other than `percent_markup` ignores the configured value. */
  lemma OtherModeIgnoresMarkup(buyPrice: Option<real>, c: PricingConfig, markup: real)
    requires c.mode != PercentMarkup
    ensures SellPrice(buyPrice, c) == SellPrice(buyPrice, c.(markup := markup))
  {
  }

  /** With a non-negative markup and rounding to 10, the selling price is never below the buying price. */
  lemma SellPriceCoversCost(buyPrice: real, c: PricingConfig)
    requires buyPrice > 0.0 && c.markup >= 0.0 && c.rounding == ToTen
    ensures SellPrice(Some(buyPrice), c) >= buyPrice
  {
    var m := MarkedUp(buyPrice, c);
    assert m >= buyPrice by {
      if c.mode == PercentMarkup {
        assert buyPrice * (1.0 + c.markup / 100.0) == buyPrice + buyPrice * (c.markup / 100.0);
      }
    }
  }

  /** Rounding up to 10 keeps the order of prices. */
  lemma CeilTenMonotone(x: real, y: real)
    requires x <= y
    ensures CeilTen(x) <= CeilTen(y)
  {
  }

  /** A dearer supplier price never gives a cheaper selling price, for a markup above -100%. */
  lemma SellPriceMonotone(p: real, q: real, c: PricingConfig)
    requires 0.0 < p <= q && c.markup > -100.0 && c.rounding == ToTen
    ensures SellPrice(Some(p), c) <= SellPrice(Some(q), c)
  {
    var f := if c.mode == PercentMarkup then 1.0 + c.markup / 100.0 else 1.0 + 15.0 / 100.0;
    assert MarkedUp(p, c) == p * f && MarkedUp(q, c) == q * f;
    assert p * f <= q * f;
    CeilTenMonotone(MarkedUp(p, c), MarkedUp(q, c));
  }
}
