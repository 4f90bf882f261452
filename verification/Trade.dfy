/** Buying from and selling to shops (apps/server/src/sync/persistor.ts, purchase and sale). */
module Trade {
  import opened Currency
  import opened FloorDivision
  import opened MapSums
  import opened Tables
  import opened Wrappers
  import I = ItemRows
  import P = Pricing

  /** A catalogue cost in copper, not yet rounded. */
  function BaseCost(cost: Cost): real {
    cost.amount * Multiplier(cost.denom) as real
  }

  function BuyUnit(db: DB, h: ShopId, d: DefId): int
    requires h in db.shops && db.shops[h].party in db.parties && d in db.catalog && db.catalog[d].cost.Some?
  {
    P.BuyPrice(BaseCost(db.catalog[d].cost.value), db.catalog[d].source,
               db.parties[db.shops[h].party].modifier, db.shops[h].modifier)
  }

  function SellUnit(db: DB, h: ShopId, d: DefId): int
    requires h in db.shops && db.shops[h].party in db.parties && d in db.catalog && db.catalog[d].cost.Some?
  {
    P.SellPrice(BaseCost(db.catalog[d].cost.value), db.catalog[d].source,
                db.parties[db.shops[h].party].modifier, db.shops[h].modifier, db.shops[h].rate)
  }

  // ---------------------------------------------------------------- purchase

  /** The rows a purchase looks up are there, and it can tell the price. */
  predicate Priced(db: DB, h: ShopId, k: StockId) {
    && h in db.shops && db.shops[h].party in db.parties
    && k in db.stock && db.stock[k].shop == h && db.stock[k].definition in db.catalog
    && (db.stock[k].override.Some? || db.catalog[db.stock[k].definition].cost.Some?)
  }

  /** An override replaces the scaled price. */
  function UnitCost(db: DB, h: ShopId, k: StockId): int
    requires Priced(db, h, k)
  {
    if db.stock[k].override.Some? then db.stock[k].override.value else BuyUnit(db, h, db.stock[k].definition)
  }

  predicate CanPurchase(db: DB, h: ShopId, k: StockId, target: StashId, quantity: int, newId: ItemId) {
    && quantity >= 1 && newId !in db.items
    && Priced(db, h, k)
    && target in db.holdings && PartyOf(db.stashes, db.characters, target) == Some(db.shops[h].party)
    && UnitCost(db, h, k) * quantity <= ToCopper(db.holdings[target])
    && (db.stock[k].quantity != UNLIMITED ==> quantity <= db.stock[k].quantity)
  }

  function TakeStock(stock: Stocks, k: StockId, quantity: int): Stocks
    requires k in stock
  {
    if stock[k].quantity == UNLIMITED then stock else stock[k := stock[k].(quantity := stock[k].quantity - quantity)]
  }

  function Purchase(db: DB, h: ShopId, k: StockId, target: StashId, quantity: int, newId: ItemId, pick: Option<ItemId>): DB
    requires CanPurchase(db, h, k, target, quantity, newId) && (pick.Some? ==> pick.value in db.items)
  {
    db.(holdings := db.holdings[target := Change(ToCopper(db.holdings[target]) - UnitCost(db, h, k) * quantity)],
        items := I.Stack(db.items, pick, newId, I.NewRow(target, db.stock[k].definition, quantity, None)),
        stock := TakeStock(db.stock, k, quantity))
  }

  ghost predicate PurchasePick(db: DB, k: StockId, target: StashId, pick: Option<ItemId>)
    requires k in db.stock
  {
    I.FindFirst(db.items, pick, I.PurchaseStacksWith(target, db.stock[k].definition))
  }

  // ---------------------------------------------------------------- sale

  predicate CanSell(db: DB, h: ShopId, i: ItemId, quantity: int, newStock: StockId) {
    && quantity >= 1 && newStock !in db.stock
    && h in db.shops && db.shops[h].party in db.parties
    && i in db.items && quantity <= db.items[i].quantity
    && db.items[i].stash in db.holdings
    && PartyOf(db.stashes, db.characters, db.items[i].stash) == Some(db.shops[h].party)
    && db.items[i].definition in db.catalog && db.catalog[db.items[i].definition].cost.Some?
    && SellUnit(db, h, db.items[i].definition) >= 0
  }

  /** The shop's stock row for the definition, if `findFirst` finds one. */
  ghost predicate SalePick(db: DB, h: ShopId, d: DefId, pick: Option<StockId>) {
    if pick.Some? then pick.value in db.stock && db.stock[pick.value].shop == h && db.stock[pick.value].definition == d
    else forall k :: k in db.stock ==> !(db.stock[k].shop == h && db.stock[k].definition == d)
  }

  function PutStock(stock: Stocks, h: ShopId, d: DefId, quantity: int, newStock: StockId, pick: Option<StockId>): Stocks
    requires pick.Some? ==> pick.value in stock
  {
    if pick.None? then stock[newStock := Stock(h, d, None, quantity)]
    else if stock[pick.value].quantity == UNLIMITED then stock
    else stock[pick.value := stock[pick.value].(quantity := stock[pick.value].quantity + quantity)]
  }

  function Sell(db: DB, h: ShopId, i: ItemId, quantity: int, newStock: StockId, pick: Option<StockId>): DB
    requires CanSell(db, h, i, quantity, newStock) && (pick.Some? ==> pick.value in db.stock)
  {
    var row := db.items[i];
    db.(holdings := db.holdings[row.stash := Change(ToCopper(db.holdings[row.stash]) + SellUnit(db, h, row.definition) * quantity)],
        items := I.Consume(db.items, i, quantity),
        stock := PutStock(db.stock, h, row.definition, quantity, newStock, pick))
  }

  // ---------------------------------------------------------------- laws

  lemma BasePrice(db: DB, h: ShopId, d: DefId)
    requires Valid(db) && h in db.shops && d in db.catalog && db.catalog[d].cost.Some?
    ensures BaseCost(db.catalog[d].cost.value) >= 0.0
    ensures db.shops[h].party in db.parties
    ensures db.parties[db.shops[h].party].modifier > 0.0 && db.shops[h].modifier > 0.0 && db.shops[h].rate > 0.0
    ensures BuyUnit(db, h, d) >= 0 && SellUnit(db, h, d) >= 0
  {
    var cost := db.catalog[d].cost.value;
    assert cost.amount >= 0.0;
    assert cost.amount * Multiplier(cost.denom) as real >= 0.0;
    var party := db.parties[db.shops[h].party];
    P.BuyPriceNonNegative(BaseCost(cost), db.catalog[d].source, party.modifier, db.shops[h].modifier);
    P.NoResaleProfit(BaseCost(cost), db.catalog[d].source, party.modifier, db.shops[h].modifier, db.shops[h].rate);
  }

  /** The price before rounding: the cost in copper, the shop's modifier, and the party's unless it is homebrew. */
  function ExactPrice(db: DB, h: ShopId, d: DefId): real
    requires h in db.shops && db.shops[h].party in db.parties && d in db.catalog && db.catalog[d].cost.Some?
  {
    var cost := db.catalog[d].cost.value;
    var coin := ToCopper(NO_COINS.Set(cost.denom, 1));
    var fair := cost.amount * coin as real * db.shops[h].modifier;
    if db.catalog[d].source == P.Homebrew then fair else fair * db.parties[db.shops[h].party].modifier
  }

  /** `n` is the nearest whole copper, halves going up. */
  predicate NearestCopper(x: real, n: int) {
    n as real - 0.5 <= x < n as real + 0.5
  }

  lemma ExactBase(db: DB, h: ShopId, d: DefId)
    requires h in db.shops && db.shops[h].party in db.parties && d in db.catalog && db.catalog[d].cost.Some?
    ensures BaseCost(db.catalog[d].cost.value)
          * P.Scale(db.catalog[d].source, db.parties[db.shops[h].party].modifier, db.shops[h].modifier) == ExactPrice(db, h, d)
  {
    var cost := db.catalog[d].cost.value;
    assert Multiplier(cost.denom) == ToCopper(NO_COINS.Set(cost.denom, 1));
    Swapped(BaseCost(cost), db.parties[db.shops[h].party].modifier, db.shops[h].modifier);
  }

  lemma Swapped(x: real, y: real, z: real)
    ensures x * (y * z) == x * z * y
  {
  }

  /** A unit costs its override, or else the nearest copper to the exact price. */
  lemma UnitCostLaw(db: DB, h: ShopId, k: StockId, v: int)
    requires Priced(db, h, k)
    ensures UnitCost(db, h, k) == v
       <==> if db.stock[k].override.Some? then v == db.stock[k].override.value
            else NearestCopper(ExactPrice(db, h, db.stock[k].definition), v)
  {
    var d := db.stock[k].definition;
    if db.stock[k].override.None? {
      BuyUnitLaw(db, h, d, v);
    }
  }

  lemma BuyUnitLaw(db: DB, h: ShopId, d: DefId, v: int)
    requires h in db.shops && db.shops[h].party in db.parties && d in db.catalog && db.catalog[d].cost.Some?
    ensures BuyUnit(db, h, d) == v <==> NearestCopper(ExactPrice(db, h, d), v)
  {
    ExactBase(db, h, d);
    P.RoundsToNearest(ExactPrice(db, h, d), v);
  }

  /** A shop pays the nearest copper to its rate of the catalogue price, which was rounded first. */
  lemma UnitCreditLaw(db: DB, h: ShopId, d: DefId, price: int, v: int)
    requires h in db.shops && db.shops[h].party in db.parties && d in db.catalog && db.catalog[d].cost.Some?
    requires NearestCopper(ExactPrice(db, h, d), price)
    ensures SellUnit(db, h, d) == v <==> NearestCopper(price as real * db.shops[h].rate, v)
  {
    BuyUnitLaw(db, h, d, price);
    P.RoundsToNearest(price as real * db.shops[h].rate, v);
  }

  /** Homebrew costs and yields the same whatever the party's modifier. */
  lemma HomebrewIgnoresParty(db: DB, h: ShopId, d: DefId, modifier: real)
    requires h in db.shops && db.shops[h].party in db.parties && d in db.catalog && db.catalog[d].cost.Some?
    requires db.catalog[d].source == P.Homebrew
    ensures var p := db.shops[h].party;
            var other := db.(parties := db.parties[p := db.parties[p].(modifier := modifier)]);
      BuyUnit(other, h, d) == BuyUnit(db, h, d) && SellUnit(other, h, d) == SellUnit(db, h, d)
  {
  }

  /** Finite stock stays finite and non-negative, unlimited stock stays unlimited; only the shop's own rows change. */
  ghost predicate StockKept(before: Stocks, after: Stocks, h: ShopId) {
    && before.Keys <= after.Keys
    && (forall k :: k in before ==> (after[k].quantity == UNLIMITED <==> before[k].quantity == UNLIMITED))
    && (forall k :: k in before && before[k].shop != h ==> after[k] == before[k])
    && (forall k :: k in after && k !in before ==> after[k].shop == h && after[k].quantity >= 1)
  }

  lemma PurchaseStock(db: DB, h: ShopId, k: StockId, target: StashId, quantity: int, newId: ItemId, pick: Option<ItemId>)
    requires Valid(db) && CanPurchase(db, h, k, target, quantity, newId) && (pick.Some? ==> pick.value in db.items)
    ensures var stock := Purchase(db, h, k, target, quantity, newId, pick).stock;
      StockKept(db.stock, stock, h) && forall j :: j in stock ==> StockOk(db.shops, stock[j])
  {
    assert StockOk(db.shops, db.stock[k]);
  }

  lemma PurchaseSafe(db: DB, h: ShopId, k: StockId, target: StashId, quantity: int, newId: ItemId, pick: Option<ItemId>)
    requires Valid(db) && CanPurchase(db, h, k, target, quantity, newId) && PurchasePick(db, k, target, pick)
    ensures var r := Purchase(db, h, k, target, quantity, newId, pick);
      Valid(r) && StockKept(db.stock, r.stock, h)
  {
    var r := Purchase(db, h, k, target, quantity, newId, pick);
    PurchaseStock(db, h, k, target, quantity, newId, pick);
    PurchaseRows(db, h, k, target, quantity, newId, pick);
  }

  lemma PurchaseRows(db: DB, h: ShopId, k: StockId, target: StashId, quantity: int, newId: ItemId, pick: Option<ItemId>)
    requires Valid(db) && CanPurchase(db, h, k, target, quantity, newId) && PurchasePick(db, k, target, pick)
    ensures var r := Purchase(db, h, k, target, quantity, newId, pick);
      ItemsOk(r.stashes, r.catalog, r.items) && HoldingsOk(r.stashes, r.holdings)
  {
    var r := Purchase(db, h, k, target, quantity, newId, pick);
    ChangeExact(ToCopper(db.holdings[target]) - UnitCost(db, h, k) * quantity);
    forall i | i in r.items ensures ItemOk(r.stashes, r.catalog, r.items[i]) {
      if i in db.items {
        assert ItemOk(db.stashes, db.catalog, db.items[i]);
      }
    }
  }

  /** A sale adds at most the one stock row whose id came with it. */
  lemma SaleSafe(db: DB, h: ShopId, i: ItemId, quantity: int, newStock: StockId, pick: Option<StockId>)
    requires Valid(db) && CanSell(db, h, i, quantity, newStock) && SalePick(db, h, db.items[i].definition, pick)
    ensures var r := Sell(db, h, i, quantity, newStock, pick);
      && Valid(r) && StockKept(db.stock, r.stock, h)
      && (forall k :: k in r.stock && k !in db.stock ==> k == newStock)
  {
    SaleRows(db, h, i, quantity, newStock, pick);
    SaleStock(db, h, i, quantity, newStock, pick);
  }

  lemma SaleRows(db: DB, h: ShopId, i: ItemId, quantity: int, newStock: StockId, pick: Option<StockId>)
    requires Valid(db) && CanSell(db, h, i, quantity, newStock) && (pick.Some? ==> pick.value in db.stock)
    ensures var r := Sell(db, h, i, quantity, newStock, pick);
      ItemsOk(r.stashes, r.catalog, r.items) && HoldingsOk(r.stashes, r.holdings)
  {
    var r := Sell(db, h, i, quantity, newStock, pick);
    var s := db.items[i].stash;
    assert db.holdings[s].NonNegative();
    assert SellUnit(db, h, db.items[i].definition) * quantity >= 0;
    ChangeExact(ToCopper(db.holdings[s]) + SellUnit(db, h, db.items[i].definition) * quantity);
    forall j | j in r.items ensures ItemOk(r.stashes, r.catalog, r.items[j]) {
      assert ItemOk(db.stashes, db.catalog, db.items[j]);
    }
  }

  lemma SaleStock(db: DB, h: ShopId, i: ItemId, quantity: int, newStock: StockId, pick: Option<StockId>)
    requires Valid(db) && CanSell(db, h, i, quantity, newStock) && SalePick(db, h, db.items[i].definition, pick)
    ensures var stock := Sell(db, h, i, quantity, newStock, pick).stock;
      && StockKept(db.stock, stock, h)
      && (forall k :: k in stock ==> StockOk(db.shops, stock[k]))
      && (forall k :: k in stock && k !in db.stock ==> k == newStock)
  {
    if pick.Some? {
      var k := pick.value;
      assert k in db.stock;
      assert StockOk(db.shops, db.stock[k]);
    }
  }

  /** What the buyer's stash is worth falls by the price, and the seller's rises by it. */
  lemma PurchaseWorth(db: DB, h: ShopId, k: StockId, target: StashId, quantity: int, newId: ItemId, pick: Option<ItemId>)
    requires Valid(db) && CanPurchase(db, h, k, target, quantity, newId) && PurchasePick(db, k, target, pick)
    ensures ToCopper(Purchase(db, h, k, target, quantity, newId, pick).holdings[target])
         == ToCopper(db.holdings[target]) - UnitCost(db, h, k) * quantity
  {
    ChangeExact(ToCopper(db.holdings[target]) - UnitCost(db, h, k) * quantity);
  }

  lemma SaleWorth(db: DB, h: ShopId, i: ItemId, quantity: int, newStock: StockId, pick: Option<StockId>)
    requires Valid(db) && CanSell(db, h, i, quantity, newStock) && (pick.Some? ==> pick.value in db.stock)
    ensures ToCopper(Sell(db, h, i, quantity, newStock, pick).holdings[db.items[i].stash])
         == ToCopper(db.holdings[db.items[i].stash]) + SellUnit(db, h, db.items[i].definition) * quantity
  {
    assert db.holdings[db.items[i].stash].NonNegative();
    assert SellUnit(db, h, db.items[i].definition) * quantity >= 0;
    ChangeExact(ToCopper(db.holdings[db.items[i].stash]) + SellUnit(db, h, db.items[i].definition) * quantity);
  }

  /** The row a purchase put its units on. */
  function BoughtRow(newId: ItemId, pick: Option<ItemId>): ItemId {
    if pick.Some? then pick.value else newId
  }

  /** After buying and selling back the stash is worth less by the difference of the two prices. */
  lemma LoopWorth(db: DB, h: ShopId, k: StockId, target: StashId, quantity: int, newId: ItemId, pick: Option<ItemId>,
                  newStock: StockId, stockPick: Option<StockId>)
    requires Valid(db) && CanPurchase(db, h, k, target, quantity, newId) && PurchasePick(db, k, target, pick)
    requires db.stock[k].override.None? && newStock !in db.stock && (stockPick.Some? ==> stockPick.value in db.stock)
    ensures var bought := Purchase(db, h, k, target, quantity, newId, pick);
            var row := BoughtRow(newId, pick);
      && CanSell(bought, h, row, quantity, newStock)
      && ToCopper(Sell(bought, h, row, quantity, newStock, stockPick).holdings[target])
         == ToCopper(db.holdings[target]) - UnitCost(db, h, k) * quantity + SellUnit(db, h, db.stock[k].definition) * quantity
  {
    PurchaseSafe(db, h, k, target, quantity, newId, pick);
    PurchaseWorth(db, h, k, target, quantity, newId, pick);
    BasePrice(db, h, db.stock[k].definition);
    BoughtRowSellable(db, h, k, target, quantity, newId, pick);
    var bought := Purchase(db, h, k, target, quantity, newId, pick);
    SaleWorth(bought, h, BoughtRow(newId, pick), quantity, newStock, stockPick);
  }

  /**
   * Buying without an override and selling the units back to the same shop gains nothing exactly
   * when the shop's rate does not lift the unit price by half a copper; a rate of at most 1 never does.
   */
  lemma NoProfitLoop(db: DB, h: ShopId, k: StockId, target: StashId, quantity: int, newId: ItemId, pick: Option<ItemId>,
                     newStock: StockId, stockPick: Option<StockId>)
    requires Valid(db) && CanPurchase(db, h, k, target, quantity, newId) && PurchasePick(db, k, target, pick)
    requires db.stock[k].override.None? && newStock !in db.stock && (stockPick.Some? ==> stockPick.value in db.stock)
    ensures var bought := Purchase(db, h, k, target, quantity, newId, pick);
            var row := BoughtRow(newId, pick);
      && CanSell(bought, h, row, quantity, newStock)
      && var sold := Sell(bought, h, row, quantity, newStock, stockPick);
         && (ToCopper(sold.holdings[target]) <= ToCopper(db.holdings[target])
             <==> UnitCost(db, h, k) as real * (db.shops[h].rate - 1.0) < 0.5)
         && (db.shops[h].rate <= 1.0 ==> ToCopper(sold.holdings[target]) <= ToCopper(db.holdings[target]))
  {
    LoopWorth(db, h, k, target, quantity, newId, pick, newStock, stockPick);
    ResaleGain(db, h, k, quantity);
  }

  lemma ResaleGain(db: DB, h: ShopId, k: StockId, quantity: int)
    requires Valid(db) && Priced(db, h, k) && db.stock[k].override.None? && quantity >= 1
    ensures var paid, got := UnitCost(db, h, k) * quantity, SellUnit(db, h, db.stock[k].definition) * quantity;
      && (got <= paid <==> UnitCost(db, h, k) as real * (db.shops[h].rate - 1.0) < 0.5)
      && (db.shops[h].rate <= 1.0 ==> got <= paid)
  {
    ResaleUnit(db, h, db.stock[k].definition);
    Scaled(UnitCost(db, h, k), SellUnit(db, h, db.stock[k].definition), quantity);
  }

  lemma ResaleUnit(db: DB, h: ShopId, d: DefId)
    requires Valid(db) && h in db.shops && d in db.catalog && db.catalog[d].cost.Some?
    ensures db.shops[h].party in db.parties
    ensures SellUnit(db, h, d) <= BuyUnit(db, h, d) <==> BuyUnit(db, h, d) as real * (db.shops[h].rate - 1.0) < 0.5
    ensures db.shops[h].rate <= 1.0 ==> SellUnit(db, h, d) <= BuyUnit(db, h, d)
  {
    BasePrice(db, h, d);
    var party := db.parties[db.shops[h].party];
    P.NoResaleProfit(BaseCost(db.catalog[d].cost.value), db.catalog[d].source, party.modifier, db.shops[h].modifier, db.shops[h].rate);
  }

  lemma Scaled(a: int, b: int, n: int)
    requires n >= 1
    ensures b * n <= a * n <==> b <= a
  {
    if b > a {
      MulAtLeast(n, b - a);
    } else if b < a {
      MulAtLeast(n, a - b);
    }
  }

  lemma BoughtRowSellable(db: DB, h: ShopId, k: StockId, target: StashId, quantity: int, newId: ItemId, pick: Option<ItemId>)
    requires Valid(db) && CanPurchase(db, h, k, target, quantity, newId) && PurchasePick(db, k, target, pick)
    ensures var bought := Purchase(db, h, k, target, quantity, newId, pick);
            var row := BoughtRow(newId, pick);
      && row in bought.items && bought.items[row].definition == db.stock[k].definition
      && bought.items[row].stash == target && bought.items[row].quantity >= quantity
  {
    if pick.Some? {
      assert I.PurchaseStacksWith(target, db.stock[k].definition)(pick.value, db.items[pick.value]);
      var j := pick.value;
      assert j in db.items;
      assert ItemOk(db.stashes, db.catalog, db.items[j]);
    }
  }

  lemma PurchaseMovesUnits(db: DB, h: ShopId, k: StockId, target: StashId, quantity: int, newId: ItemId, pick: Option<ItemId>,
                           weight: (ItemId, Item) -> int, counted: (DefId, StashId) -> bool)
    requires Valid(db) && CanPurchase(db, h, k, target, quantity, newId) && PurchasePick(db, k, target, pick)
    requires I.CountsQuantity(weight, counted)
    ensures MapSum(Purchase(db, h, k, target, quantity, newId, pick).items, weight)
         == MapSum(db.items, weight) + if counted(db.stock[k].definition, target) then quantity else 0
  {
    if pick.Some? {
      assert I.PurchaseStacksWith(target, db.stock[k].definition)(pick.value, db.items[pick.value]);
    }
    I.StackSum(db.items, pick, newId, I.NewRow(target, db.stock[k].definition, quantity, None), weight, counted);
  }

  lemma SaleMovesUnits(db: DB, h: ShopId, i: ItemId, quantity: int, newStock: StockId, pick: Option<StockId>,
                       weight: (ItemId, Item) -> int, counted: (DefId, StashId) -> bool)
    requires CanSell(db, h, i, quantity, newStock) && (pick.Some? ==> pick.value in db.stock)
    requires I.CountsQuantity(weight, counted)
    ensures MapSum(Sell(db, h, i, quantity, newStock, pick).items, weight)
         == MapSum(db.items, weight) - if counted(db.items[i].definition, db.items[i].stash) then quantity else 0
  {
    I.ConsumeSum(db.items, i, quantity, weight, counted);
  }

  /** How many units of stock come in at a row; unlimited stock stays as it is. */
  function Restocked(row: Stock, quantity: int): Stock {
    Stock(row.shop, row.definition, row.override, if row.quantity == -1 then -1 else row.quantity + quantity)
  }

  /** A purchase takes its units off the row bought from and off no other. */
  lemma PurchaseTakesStock(db: DB, h: ShopId, k: StockId, target: StashId, quantity: int, newId: ItemId, pick: Option<ItemId>, j: StockId)
    requires CanPurchase(db, h, k, target, quantity, newId) && (pick.Some? ==> pick.value in db.items)
    ensures var after := Purchase(db, h, k, target, quantity, newId, pick).stock;
      && after.Keys == db.stock.Keys
      && (j in after ==> after[j] == if j == k then Restocked(db.stock[j], -quantity) else db.stock[j])
  {
  }

  /**
   * A sale puts its units on a row of the shop for the definition if there is one, and otherwise adds
   * one with just those units and no override; every other row stays.
   */
  lemma SalePutsStock(db: DB, h: ShopId, i: ItemId, quantity: int, newStock: StockId, pick: Option<StockId>, j: StockId)
    requires CanSell(db, h, i, quantity, newStock) && SalePick(db, h, db.items[i].definition, pick)
    ensures var after := Sell(db, h, i, quantity, newStock, pick).stock;
            var d := db.items[i].definition;
      && (j in db.stock ==> j in after && after[j] == if pick == Some(j) then Restocked(db.stock[j], quantity) else db.stock[j])
      && (j in after && j !in db.stock ==> j == newStock && after[j] == Stock(h, d, None, quantity))
      && (newStock in after <==> forall k :: k in db.stock ==> !(db.stock[k].shop == h && db.stock[k].definition == d))
      && (pick.Some? ==> pick.value in db.stock && db.stock[pick.value].shop == h && db.stock[pick.value].definition == d)
  {
    if pick.Some? {
      var k := pick.value;
      assert k in db.stock && db.stock[k].shop == h && db.stock[k].definition == db.items[i].definition;
    }
  }

  /** The shop's only stock row for the definition is finite. */
  ghost predicate SoleStockRow(stock: Stocks, h: ShopId, d: DefId, k: StockId) {
    && k in stock && stock[k].shop == h && stock[k].definition == d && stock[k].quantity != UNLIMITED
    && (forall j :: j in stock && stock[j].shop == h && stock[j].definition == d ==> j == k)
  }

  /** Units sold end up on the shop's only stock row for them. */
  lemma SaleRestocks(db: DB, h: ShopId, d: DefId, quantity: int, newStock: StockId, pick: Option<StockId>, k: StockId)
    requires SalePick(db, h, d, pick) && SoleStockRow(db.stock, h, d, k)
    ensures PutStock(db.stock, h, d, quantity, newStock, pick)
         == db.stock[k := db.stock[k].(quantity := db.stock[k].quantity + quantity)]
  {
    assert db.stock[k].shop == h && db.stock[k].definition == d;
    if pick.Some? {
      var j := pick.value;
      assert j in db.stock && db.stock[j].shop == h && db.stock[j].definition == d;
      assert j == k;
    }
  }
}
