/** Shop prices in whole copper (packages/rules/src/pricing.ts), with modifiers and rates as exact reals. */
module Pricing {

  datatype Source = PHB | DMG | Homebrew

  /** Rounding half up, as `Math.floor(x + 0.5)` does it. */
  function RoundHalfUp(x: real): int {
    (x + 0.5).Floor
  }

  /** Homebrew is priced in real coins: only the shop's modifier applies to it. */
  function Scale(source: Source, partyModifier: real, shopModifier: real): real {
    if source == Homebrew then shopModifier else partyModifier * shopModifier
  }

  function BuyPrice(base: real, source: Source, partyModifier: real, shopModifier: real): int {
    RoundHalfUp(base * Scale(source, partyModifier, shopModifier))
  }

  function SellPrice(base: real, source: Source, partyModifier: real, shopModifier: real, rate: real): int {
    RoundHalfUp(BuyPrice(base, source, partyModifier, shopModifier) as real * rate)
  }

  /** Rounding yields the one integer within half a copper of the exact value, ties going up. */
  lemma RoundsToNearest(x: real, n: int)
    ensures RoundHalfUp(x) == n <==> n as real - 0.5 <= x < n as real + 0.5
  {
    var f := (x + 0.5).Floor;
    assert f as real <= x + 0.5 < f as real + 1.0;
    if n as real - 0.5 <= x < n as real + 0.5 {
      assert n as real <= x + 0.5 < n as real + 1.0;
    }
  }

  lemma ProductNonNegative(x: real, y: real)
    requires x >= 0.0 && y >= 0.0
    ensures x * y >= 0.0
  {
  }

  lemma BuyPriceNonNegative(base: real, source: Source, partyModifier: real, shopModifier: real)
    requires base >= 0.0 && partyModifier > 0.0 && shopModifier > 0.0
    ensures BuyPrice(base, source, partyModifier, shopModifier) >= 0
  {
    var scale := Scale(source, partyModifier, shopModifier);
    assert scale > 0.0;
    ProductNonNegative(base, scale);
    RoundsToNearest(base * scale, BuyPrice(base, source, partyModifier, shopModifier));
  }

  /**
   * Selling back pays no more than buying cost exactly when the merchant's rate does not lift the
   * unit price by half a copper or more. A rate of at most 1 always meets that.
   */
  lemma NoResaleProfit(base: real, source: Source, partyModifier: real, shopModifier: real, rate: real)
    requires base >= 0.0 && partyModifier > 0.0 && shopModifier > 0.0 && rate > 0.0
    ensures var buy := BuyPrice(base, source, partyModifier, shopModifier);
            var sell := SellPrice(base, source, partyModifier, shopModifier, rate);
      && sell >= 0
      && (sell <= buy <==> buy as real * (rate - 1.0) < 0.5)
      && (rate <= 1.0 ==> sell <= buy)
  {
    BuyPriceNonNegative(base, source, partyModifier, shopModifier);
    var buy := BuyPrice(base, source, partyModifier, shopModifier);
    var sell := SellPrice(base, source, partyModifier, shopModifier, rate);
    var exact := buy as real * rate;
    ProductNonNegative(buy as real, rate);
    RoundsToNearest(exact, sell);
    assert buy as real * (rate - 1.0) == exact - buy as real;
    if rate <= 1.0 {
      ProductNonNegative(buy as real, 1.0 - rate);
      assert buy as real * (1.0 - rate) == buy as real - exact;
    }
  }
}
