/** What a party is worth to a shop: its coins and what the shop would pay for its goods. */
module Profit {
  import opened Currency
  import opened Ledger
  import opened LedgerSafe
  import opened MapSums
  import opened Runs
  import opened Tables
  import opened Totals
  import P = Pricing
  import T = Trade

  /** What a shop pays for a unit; without a catalogue cost it buys none. */
  function Credit(definition: Definition, modifier: real, shop: Shop): int {
    if definition.cost.None? then 0
    else P.SellPrice(T.BaseCost(definition.cost.value), definition.source, modifier, shop.modifier, shop.rate)
  }

  ghost function UnitsWorth(db: DB, h: ShopId): (DefId, Definition) -> int
    requires h in db.shops && db.shops[h].party in db.parties
  {
    var shop := db.shops[h];
    var modifier := db.parties[shop.party].modifier;
    (d: DefId, definition: Definition) => Credit(definition, modifier, shop) * PartyQuantity(db, shop.party, d)
  }

  /** In copper, the coins of the shop's party and what the shop would pay for all its units. */
  ghost function Wealth(db: DB, h: ShopId): int
    requires h in db.shops && db.shops[h].party in db.parties
  {
    ToCopper(Purse(db, db.shops[h].party)) + MapSum(db.catalog, UnitsWorth(db, h))
  }

  /** What a unit is worth more to the shop than it costs; only buying from an override or at a high rate gains. */
  ghost function Margin(db: DB, h: ShopId, k: StockId): int
    requires T.Priced(db, h, k)
  {
    Credit(db.catalog[db.stock[k].definition], db.parties[db.shops[h].party].modifier, db.shops[h]) - T.UnitCost(db, h, k)
  }

  ghost function Gain(db: DB, a: Action): int
    requires Legal(db, a)
  {
    match a
    case OnTrade(Purchase(h, k, _, quantity, _, _)) => Margin(db, h, k) * quantity
    case _ => 0
  }

  ghost function Gains(db: DB, run: seq<Action>): int
    requires Valid(db) && LegalRun(db, run)
    decreases |run|
  {
    if run == [] then 0
    else
      ActionSafe(db, run[0]);
      Gain(db, run[0]) + Gains(Apply(db, run[0]), run[1..])
  }

  // ---------------------------------------------------------------- one action

  lemma Distributes(price: int, units: int, more: int)
    ensures price * (units + more) == price * units + price * more
  {
  }

  /** The units of one definition change the worth of the goods by their credit. */
  lemma GoodsChange(db: DB, r: DB, h: ShopId, d: DefId, more: int)
    requires h in db.shops && db.shops[h].party in db.parties && SamePrices(db, r) && d in db.catalog
    requires forall e :: PartyQuantity(r, db.shops[h].party, e)
                      == PartyQuantity(db, db.shops[h].party, e) + if e == d then more else 0
    ensures MapSum(r.catalog, UnitsWorth(r, h))
         == MapSum(db.catalog, UnitsWorth(db, h))
            + Credit(db.catalog[d], db.parties[db.shops[h].party].modifier, db.shops[h]) * more
  {
    var p := db.shops[h].party;
    SumReweighed(db.catalog, UnitsWorth(db, h), UnitsWorth(r, h), d);
    Distributes(Credit(db.catalog[d], db.parties[p].modifier, db.shops[h]), PartyQuantity(db, p, d), more);
  }

  lemma GoodsStay(db: DB, r: DB, h: ShopId)
    requires h in db.shops && db.shops[h].party in db.parties && SamePrices(db, r)
    requires forall e :: PartyQuantity(r, db.shops[h].party, e) == PartyQuantity(db, db.shops[h].party, e)
    ensures MapSum(r.catalog, UnitsWorth(r, h)) == MapSum(db.catalog, UnitsWorth(db, h))
  {
    SumSame(r.catalog, UnitsWorth(r, h), db.catalog, UnitsWorth(db, h));
  }

  lemma TradePrices(db: DB, a: TradeAction)
    requires LegalOnTrade(db, a)
    ensures SamePrices(db, ApplyTrade(db, a))
  {
  }

  /** `r` owns what `db` does, `worth` in copper, and `units` of one definition. */
  ghost predicate Traded(db: DB, r: DB, p: PartyId, worth: int, d: DefId, units: int) {
    && SamePrices(db, r)
    && ToCopper(Purse(r, p)) == ToCopper(Purse(db, p)) + worth
    && (forall e :: PartyQuantity(r, p, e) == PartyQuantity(db, p, e) + if e == d then units else 0)
  }

  lemma TradedWealth(db: DB, r: DB, h: ShopId, worth: int, d: DefId, units: int)
    requires h in db.shops && db.shops[h].party in db.parties && d in db.catalog
    requires Traded(db, r, db.shops[h].party, worth, d, units)
    ensures Wealth(r, h) == Wealth(db, h) + worth + Credit(db.catalog[d], db.parties[db.shops[h].party].modifier, db.shops[h]) * units
  {
    GoodsChange(db, r, h, d, units);
  }

  ghost function UnitsTraded(a: TradeAction): int {
    if a.Purchase? then a.quantity else -a.quantity
  }

  ghost function DefinitionTraded(db: DB, a: TradeAction): DefId
    requires LegalOnTrade(db, a)
  {
    if a.Purchase? then db.stock[a.k].definition else db.items[a.i].definition
  }

  lemma TradeTrades(db: DB, a: TradeAction, p: PartyId)
    requires Valid(db) && LegalOnTrade(db, a) && BelongsTo(db, TradingStash(db, a), p)
    ensures Traded(db, ApplyTrade(db, a), p, PriceOf(db, a), DefinitionTraded(db, a), UnitsTraded(a))
  {
    TradePrices(db, a);
    ActionWorth(db, OnTrade(a), p);
    ActionAccounted(db, OnTrade(a), p);
  }

  lemma TradeGain(db: DB, a: TradeAction, h: ShopId)
    requires LegalOnTrade(db, a) && a.h == h
    ensures h in db.shops && db.shops[h].party in db.parties && DefinitionTraded(db, a) in db.catalog
    ensures BelongsTo(db, TradingStash(db, a), db.shops[h].party)
    ensures Gain(db, OnTrade(a))
         == PriceOf(db, a) + Credit(db.catalog[DefinitionTraded(db, a)], db.parties[db.shops[h].party].modifier, db.shops[h]) * UnitsTraded(a)
  {
    if a.Purchase? {
      var credit := Credit(db.catalog[db.stock[a.k].definition], db.parties[db.shops[h].party].modifier, db.shops[h]);
      var cost := T.UnitCost(db, h, a.k);
      Times(credit, cost, a.quantity);
    } else {
      Negated(T.SellUnit(db, h, db.items[a.i].definition), a.quantity);
    }
  }

  lemma Times(a: int, b: int, n: int)
    ensures (a - b) * n == -(b * n) + a * n
  {
  }

  lemma Negated(a: int, n: int)
    ensures a * n + a * -n == 0
  {
  }

  lemma TradeWealth(db: DB, a: TradeAction, h: ShopId)
    requires Valid(db) && LegalOnTrade(db, a) && a.h == h
    ensures var r := ApplyTrade(db, a);
      && h in db.shops && db.shops[h].party in db.parties && SamePrices(db, r)
      && Wealth(r, h) == Wealth(db, h) + Gain(db, OnTrade(a))
  {
    TradeGain(db, a, h);
    TradeTrades(db, a, db.shops[h].party);
    TradedWealth(db, ApplyTrade(db, a), h, PriceOf(db, a), DefinitionTraded(db, a), UnitsTraded(a));
  }

  /** Nothing but the units and coins of the shop's party has changed in price, and it is worth so much more. */
  ghost predicate Enriched(db: DB, r: DB, h: ShopId, more: int) {
    && h in db.shops && db.shops[h].party in db.parties && SamePrices(db, r)
    && Wealth(r, h) == Wealth(db, h) + more
  }

  lemma EnrichedOn(a: DB, b: DB, c: DB, h: ShopId, more: int, later: int)
    requires Enriched(a, b, h, more) && Enriched(b, c, h, later)
    ensures Enriched(a, c, h, more + later)
  {
  }

  lemma OtherWealth(db: DB, a: Action, h: ShopId)
    requires Valid(db) && Legal(db, a) && Circulating(a, h) && !a.OnTrade? && h in db.shops
    ensures Enriched(db, Apply(db, a), h, 0)
  {
    ShopsUntouched(db, a);
    MovingAdds(db, a, db.shops[h].party);
    ActionWorth(db, a, db.shops[h].party);
    ActionAccounted(db, a, db.shops[h].party);
    GoodsStay(db, Apply(db, a), h);
  }

  lemma ActionWealth(db: DB, a: Action, h: ShopId)
    requires Valid(db) && Legal(db, a) && Circulating(a, h) && h in db.shops
    ensures Enriched(db, Apply(db, a), h, Gain(db, a))
  {
    if a.OnTrade? {
      TradeWealth(db, a.trade, h);
    } else {
      OtherWealth(db, a, h);
    }
  }

  // ---------------------------------------------------------------- any run

  predicate AllCirculating(run: seq<Action>, h: ShopId) {
    forall n :: 0 <= n < |run| ==> Circulating(run[n], h)
  }

  /**
   * Over every run of trades at a shop and of moving actions the party's coins and goods, valued at
   * what the shop pays, change by the margins of its purchases alone.
   */
  lemma {:induction false} WealthAccounted(db: DB, run: seq<Action>, h: ShopId)
    requires Valid(db) && LegalRun(db, run) && h in db.shops
    requires AllCirculating(run, h)
    ensures Enriched(db, Run(db, run), h, Gains(db, run))
    decreases |run|
  {
    if run != [] {
      assert Circulating(run[0], h) && AllCirculating(run[1..], h);
      ActionSafe(db, run[0]);
      ActionWealth(db, run[0], h);
      var next, more := Apply(db, run[0]), Gain(db, run[0]);
      WealthAccounted(next, run[1..], h);
      EnrichedOn(db, next, Run(next, run[1..]), h, more, Gains(next, run[1..]));
    }
  }

  /** The shop pays at most the price, which no stock row of its own overrides. */
  ghost predicate NoBargains(db: DB, h: ShopId) {
    && h in db.shops && db.shops[h].rate <= 1.0
    && forall k :: k in db.stock && db.stock[k].shop == h ==> db.stock[k].override.None?
  }

  lemma TradeBargains(db: DB, a: TradeAction, h: ShopId)
    requires LegalOnTrade(db, a) && a.h == h && NoBargains(db, h)
    ensures NoBargains(ApplyTrade(db, a), h)
  {
  }

  lemma BargainsStay(db: DB, a: Action, h: ShopId)
    requires Valid(db) && Legal(db, a) && Circulating(a, h) && NoBargains(db, h)
    ensures NoBargains(Apply(db, a), h)
  {
    if a.OnTrade? {
      TradeBargains(db, a.trade, h);
    } else {
      ShopsUntouched(db, a);
    }
  }

  lemma NoGain(db: DB, a: Action, h: ShopId)
    requires Valid(db) && Legal(db, a) && Circulating(a, h) && NoBargains(db, h)
    ensures Gain(db, a) <= 0
  {
    if a.OnTrade? && a.trade.Purchase? {
      var k := a.trade.k;
      T.ResaleUnit(db, h, db.stock[k].definition);
      assert Margin(db, h, k) <= 0;
      assert a.trade.quantity >= 1;
    }
  }

  lemma {:induction false} NoGains(db: DB, run: seq<Action>, h: ShopId)
    requires Valid(db) && LegalRun(db, run) && NoBargains(db, h)
    requires AllCirculating(run, h)
    ensures Gains(db, run) <= 0
    decreases |run|
  {
    if run != [] {
      assert Circulating(run[0], h) && AllCirculating(run[1..], h);
      ActionSafe(db, run[0]);
      BargainsStay(db, run[0], h);
      NoGain(db, run[0], h);
      NoGains(Apply(db, run[0]), run[1..], h);
    }
  }

  /** Where no price is overridden and the rate is at most 1, no such run makes the party any richer. */
  lemma NoRunProfits(db: DB, run: seq<Action>, h: ShopId)
    requires Valid(db) && LegalRun(db, run) && NoBargains(db, h)
    requires AllCirculating(run, h)
    ensures var r := Run(db, run);
      && db.shops[h].party in db.parties && SamePrices(db, r)
      && Wealth(r, h) <= Wealth(db, h)
  {
    WealthAccounted(db, run, h);
    NoGains(db, run, h);
  }
}
