/** What holds after every run of the ledger. */
module Runs {
  import opened Currency
  import opened Ledger
  import opened LedgerSafe
  import opened Members
  import opened Tables
  import opened Totals
  import opened Wrappers
  import T = Trade

  ghost predicate LegalRun(db: DB, run: seq<Action>)
    requires Valid(db)
    decreases |run|
  {
    run != [] ==>
      && Legal(db, run[0])
      && (ActionSafe(db, run[0]); LegalRun(Apply(db, run[0]), run[1..]))
  }

  ghost function Run(db: DB, run: seq<Action>): (r: DB)
    requires Valid(db) && LegalRun(db, run)
    ensures Valid(r)
    decreases |run|
  {
    if run == [] then db
    else
      ActionSafe(db, run[0]);
      Run(Apply(db, run[0]), run[1..])
  }

  /** The states a run goes through from the seeded catalogue on. */
  ghost predicate Reachable(catalog: Catalog, run: seq<Action>) {
    CatalogOk(catalog) && (FreshValid(catalog); LegalRun(Fresh(catalog), run))
  }

  ghost function Reached(catalog: Catalog, run: seq<Action>): (r: DB)
    requires Reachable(catalog, run)
    ensures Valid(r)
  {
    FreshValid(catalog);
    Run(Fresh(catalog), run)
  }

  lemma FreshValid(catalog: Catalog)
    requires CatalogOk(catalog)
    ensures Valid(Fresh(catalog))
  {
  }

  // ---------------------------------------------------------------- government

  /**
   * After every run: a party is archived exactly when it has no active member; otherwise it has one
   * active DM, who is its owner, and its Banker, if any, is an active player other than the owner.
   */
  lemma PartiesGoverned(catalog: Catalog, run: seq<Action>, p: PartyId)
    requires Reachable(catalog, run) && p in Reached(catalog, run).parties
    ensures var r := Reached(catalog, run);
            var party := r.parties[p];
      && (party.archived <==> forall u :: !IsMember(r.seats, u, p))
      && (!party.archived ==>
            && (forall u :: Active(r.seats, Seat(u, p, Dm)) <==> u == party.owner)
            && (party.banker.Some? ==> party.banker.value != party.owner && Active(r.seats, Seat(party.banker.value, p, Player))))
  {
    var r := Reached(catalog, run);
    if r.parties[p].archived {
      assert Deserted(p, r.seats);
    } else {
      assert Governed(r.parties[p], p, r.seats);
      assert IsMember(r.seats, r.parties[p].owner, p);
    }
  }

  /** After every run: no active DM has a soft-deleted player row, so no later `create` finds one in its way. */
  lemma KeysNeverCollide(catalog: Catalog, run: seq<Action>, u: UserId, p: PartyId)
    requires Reachable(catalog, run)
    ensures var seats := Reached(catalog, run).seats;
      && !(Active(seats, Seat(u, p, Dm)) && Seat(u, p, Player) in seats && !Active(seats, Seat(u, p, Player)))
      && (IsMember(seats, u, p) && Seat(u, p, Player) in seats ==> Active(seats, Seat(u, p, Player)))
  {
  }

  /**
   * After every run: every character has its Inventory and a player row naming it, active if the
   * party is open; and in an open party a row that names a character is active and is that row.
   */
  lemma CharactersHaveSeats(catalog: Catalog, run: seq<Action>, c: CharId, seat: Seat)
    requires Reachable(catalog, run)
    ensures var r := Reached(catalog, run);
      && (c in r.characters ==>
            var mine, s := SeatOf(r.characters[c]), r.characters[c].inventory;
            && mine in r.seats && r.seats[mine].character == Some(c)
            && (Open(r.parties, mine.party) ==> Active(r.seats, mine))
            && s in r.stashes && r.stashes[s].carried && r.stashes[s].owner == Some(c) && s in r.holdings)
      && (seat in r.seats && Open(r.parties, seat.party) ==>
            && (r.seats[seat].character == Some(c) <==> c in r.characters && seat == SeatOf(r.characters[c]))
            && (r.seats[seat].character.Some? ==> Active(r.seats, seat) && seat.role == Player))
  {
    var r := Reached(catalog, run);
    if c in r.characters {
      var mine := SeatOf(r.characters[c]);
      assert CharacterLinked(r.parties, r.seats, c, r.characters[c]);
      assert RowLinked(r.parties, r.characters, mine, r.seats[mine]);
    }
    if seat in r.seats {
      assert RowLinked(r.parties, r.characters, seat, r.seats[seat]);
    }
  }

  /**
   * After every run: an item row is non-empty, in a stash that exists and of a definition that exists,
   * and only rows in Inventories carry flags; every stash has one holding, which is not negative;
   * stock is unlimited or not negative.
   */
  lemma RowsSound(catalog: Catalog, run: seq<Action>, i: ItemId, s: StashId, k: StockId)
    requires Reachable(catalog, run)
    ensures var r := Reached(catalog, run);
      && (i in r.items ==>
            && r.items[i].quantity >= 1 && r.items[i].stash in r.stashes && r.items[i].definition in r.catalog
            && (r.items[i].equipped || r.items[i].attuned ==> r.stashes[r.items[i].stash].carried))
      && (s in r.stashes <==> s in r.holdings)
      && (s in r.holdings ==> r.holdings[s].NonNegative())
      && (k in r.stock ==> r.stock[k].shop in r.shops && (r.stock[k].quantity == UNLIMITED || r.stock[k].quantity >= 0))
  {
    var r := Reached(catalog, run);
    if i in r.items {
      assert ItemOk(r.stashes, r.catalog, r.items[i]);
    }
    if k in r.stock {
      assert StockOk(r.shops, r.stock[k]);
    }
  }

  // ---------------------------------------------------------------- totals

  ghost function UnitsAdded(db: DB, run: seq<Action>, p: PartyId, d: DefId): int
    requires Valid(db) && LegalRun(db, run)
    decreases |run|
  {
    if run == [] then 0
    else
      ActionSafe(db, run[0]);
      ItemChange(db, run[0], p, d) + UnitsAdded(Apply(db, run[0]), run[1..], p, d)
  }

  ghost function CoinsAdded(db: DB, run: seq<Action>, p: PartyId): Coins
    requires Valid(db) && LegalRun(db, run)
    decreases |run|
  {
    if run == [] then NO_COINS
    else
      ActionSafe(db, run[0]);
      Add(CoinChange(db, run[0], p), CoinsAdded(Apply(db, run[0]), run[1..], p))
  }

  ghost function WorthAdded(db: DB, run: seq<Action>, p: PartyId): int
    requires Valid(db) && LegalRun(db, run)
    decreases |run|
  {
    if run == [] then 0
    else
      ActionSafe(db, run[0]);
      WorthChange(db, run[0], p) + WorthAdded(Apply(db, run[0]), run[1..], p)
  }

  /** Everything a party holds, in one purse. */
  ghost function Purse(db: DB, p: PartyId): Coins {
    Coins(PartyCoins(db, p, CP), PartyCoins(db, p, SP), PartyCoins(db, p, EP), PartyCoins(db, p, GP), PartyCoins(db, p, PP))
  }

  /** Over every run the units a party owns change by what acquiring, consuming and trading add up to. */
  lemma {:induction false} UnitsConserved(db: DB, run: seq<Action>, p: PartyId, d: DefId)
    requires Valid(db) && LegalRun(db, run)
    ensures PartyQuantity(Run(db, run), p, d) == PartyQuantity(db, p, d) + UnitsAdded(db, run, p, d)
    decreases |run|
  {
    if run != [] {
      ActionSafe(db, run[0]);
      ActionAccounted(db, run[0], p);
      UnitsConserved(Apply(db, run[0]), run[1..], p, d);
    }
  }

  /** Denomination by denomination one purse is another and a third together. */
  lemma PurseAdds(r: DB, db: DB, p: PartyId, more: Coins)
    requires forall d: Denom :: PartyCoins(r, p, d) == PartyCoins(db, p, d) + more.Get(d)
    ensures Purse(r, p) == Add(Purse(db, p), more)
  {
    assert PartyCoins(r, p, CP) == PartyCoins(db, p, CP) + more.Get(CP);
    assert PartyCoins(r, p, SP) == PartyCoins(db, p, SP) + more.Get(SP);
    assert PartyCoins(r, p, EP) == PartyCoins(db, p, EP) + more.Get(EP);
    assert PartyCoins(r, p, GP) == PartyCoins(db, p, GP) + more.Get(GP);
    assert PartyCoins(r, p, PP) == PartyCoins(db, p, PP) + more.Get(PP);
  }

  lemma ActionPurse(db: DB, a: Action, p: PartyId)
    requires Valid(db) && Legal(db, a)
    ensures Purse(Apply(db, a), p) == Add(Purse(db, p), CoinChange(db, a, p))
  {
    ActionAccounted(db, a, p);
    PurseAdds(Apply(db, a), db, p, CoinChange(db, a, p));
  }

  lemma AddAssociative(a: Coins, b: Coins, c: Coins)
    ensures Add(Add(a, b), c) == Add(a, Add(b, c))
  {
  }

  /** And so do its coins, denomination by denomination. */
  lemma {:induction false} CoinsConserved(db: DB, run: seq<Action>, p: PartyId)
    requires Valid(db) && LegalRun(db, run)
    ensures Purse(Run(db, run), p) == Add(Purse(db, p), CoinsAdded(db, run, p))
    decreases |run|
  {
    if run != [] {
      ActionSafe(db, run[0]);
      ActionPurse(db, run[0], p);
      var next := Apply(db, run[0]);
      CoinsConserved(next, run[1..], p);
      AddAssociative(Purse(db, p), CoinChange(db, run[0], p), CoinsAdded(next, run[1..], p));
    }
  }

  /** The party is worth so much more in copper. */
  ghost predicate Richer(db: DB, r: DB, p: PartyId, more: int) {
    ToCopper(Purse(r, p)) == ToCopper(Purse(db, p)) + more
  }

  lemma PurseRicher(db: DB, r: DB, p: PartyId, more: Coins, worth: int)
    requires Purse(r, p) == Add(Purse(db, p), more) && ToCopper(more) == worth
    ensures Richer(db, r, p, worth)
  {
  }

  lemma ActionWorth(db: DB, a: Action, p: PartyId)
    requires Valid(db) && Legal(db, a)
    ensures Richer(db, Apply(db, a), p, WorthChange(db, a, p))
  {
    ActionPurse(db, a, p);
    ChangeWorth(db, a, p);
    PurseRicher(db, Apply(db, a), p, CoinChange(db, a, p), WorthChange(db, a, p));
  }

  /** In copper, only deposits, withdrawals, purchases and sales change what a party is worth. */
  lemma {:induction false} WorthConserved(db: DB, run: seq<Action>, p: PartyId)
    requires Valid(db) && LegalRun(db, run)
    ensures ToCopper(Purse(Run(db, run), p)) == ToCopper(Purse(db, p)) + WorthAdded(db, run, p)
    decreases |run|
  {
    if run != [] {
      ActionSafe(db, run[0]);
      ActionWorth(db, run[0], p);
      WorthConserved(Apply(db, run[0]), run[1..], p);
    }
  }

  // ---------------------------------------------------------------- runs that only move things

  /** Actions that move units and coins but neither make nor destroy any. */
  predicate Moving(a: Action) {
    match a
    case OnItems(Acquire(_, _, _, _, _, _)) => false
    case OnItems(Consume(_, _)) => false
    case OnCoins(CurrencyChange(_, _)) => false
    case OnTrade(_) => false
    case _ => true
  }

  lemma MovingAdds(db: DB, a: Action, p: PartyId)
    requires Legal(db, a) && Moving(a)
    ensures forall d :: ItemChange(db, a, p, d) == 0
    ensures WorthChange(db, a, p) == 0
    ensures !(a.OnCoins? && a.coins.SplitEvenly?) ==> CoinChange(db, a, p) == NO_COINS
  {
  }

  lemma {:induction false} MovingRunAdds(db: DB, run: seq<Action>, p: PartyId, d: DefId)
    requires Valid(db) && LegalRun(db, run)
    requires forall n :: 0 <= n < |run| ==> Moving(run[n])
    ensures UnitsAdded(db, run, p, d) == 0 && WorthAdded(db, run, p) == 0
    decreases |run|
  {
    if run != [] {
      ActionSafe(db, run[0]);
      MovingAdds(db, run[0], p);
      MovingRunAdds(Apply(db, run[0]), run[1..], p, d);
    }
  }

  /** Over a run of such actions every party keeps every unit, and its coins keep their worth. */
  lemma MovingRunKeepsAll(db: DB, run: seq<Action>, p: PartyId, d: DefId)
    requires Valid(db) && LegalRun(db, run)
    requires forall n :: 0 <= n < |run| ==> Moving(run[n])
    ensures PartyQuantity(Run(db, run), p, d) == PartyQuantity(db, p, d)
    ensures ToCopper(Purse(Run(db, run), p)) == ToCopper(Purse(db, p))
  {
    MovingRunAdds(db, run, p, d);
    UnitsConserved(db, run, p, d);
    WorthConserved(db, run, p);
  }

  /** Actions that also leave every coin what it is; only an even split changes coins into others. */
  predicate KeepsCoins(a: Action) {
    Moving(a) && !(a.OnCoins? && a.coins.SplitEvenly?)
  }

  lemma {:induction false} KeepingRunAdds(db: DB, run: seq<Action>, p: PartyId)
    requires Valid(db) && LegalRun(db, run)
    requires forall n :: 0 <= n < |run| ==> KeepsCoins(run[n])
    ensures CoinsAdded(db, run, p) == NO_COINS
    decreases |run|
  {
    if run != [] {
      ActionSafe(db, run[0]);
      MovingAdds(db, run[0], p);
      KeepingRunAdds(Apply(db, run[0]), run[1..], p);
    }
  }

  /** Without even splits the coins of every denomination are kept too. */
  lemma KeepingRunKeepsCoins(db: DB, run: seq<Action>, p: PartyId)
    requires Valid(db) && LegalRun(db, run)
    requires forall n :: 0 <= n < |run| ==> KeepsCoins(run[n])
    ensures Purse(Run(db, run), p) == Purse(db, p)
  {
    KeepingRunAdds(db, run, p);
    CoinsConserved(db, run, p);
  }

  // ---------------------------------------------------------------- a shop and its party

  /** The units of a definition a party and one stock row hold together. */
  ghost function InCirculation(db: DB, k: StockId, d: DefId): int
    requires k in db.stock && db.stock[k].shop in db.shops
  {
    PartyQuantity(db, db.shops[db.stock[k].shop].party, d) + db.stock[k].quantity
  }

  lemma PurchaseCirculates(db: DB, h: ShopId, j: StockId, target: StashId, quantity: int, newId: ItemId, pick: Option<ItemId>,
                           d: DefId, k: StockId)
    requires Valid(db) && T.CanPurchase(db, h, j, target, quantity, newId) && T.PurchasePick(db, j, target, pick)
    requires T.SoleStockRow(db.stock, h, d, k)
    ensures var r := T.Purchase(db, h, j, target, quantity, newId, pick);
      && T.SoleStockRow(r.stock, h, d, k) && r.shops == db.shops
      && InCirculation(r, k, d) == InCirculation(db, k, d)
  {
    TradeItemsAccounted(db, TradeAction.Purchase(h, j, target, quantity, newId, pick), db.shops[h].party, d);
    T.PurchaseStock(db, h, j, target, quantity, newId, pick);
  }

  lemma SaleCirculates(db: DB, h: ShopId, i: ItemId, quantity: int, newStock: StockId, pick: Option<StockId>, d: DefId, k: StockId)
    requires Valid(db) && T.CanSell(db, h, i, quantity, newStock) && T.SalePick(db, h, db.items[i].definition, pick)
    requires T.SoleStockRow(db.stock, h, d, k)
    ensures var r := T.Sell(db, h, i, quantity, newStock, pick);
      && T.SoleStockRow(r.stock, h, d, k) && r.shops == db.shops
      && InCirculation(r, k, d) == InCirculation(db, k, d)
  {
    TradeItemsAccounted(db, TradeAction.Sale(h, i, quantity, newStock, pick), db.shops[h].party, d);
    T.SaleStock(db, h, i, quantity, newStock, pick);
    if db.items[i].definition == d {
      T.SaleRestocks(db, h, d, quantity, newStock, pick, k);
    }
  }

  /**
   * With a single finite stock row for a definition in the shop, trading there only passes units
   * between the party and the row.
   */
  lemma TradeCirculates(db: DB, a: TradeAction, h: ShopId, d: DefId, k: StockId)
    requires Valid(db) && LegalOnTrade(db, a) && a.h == h && T.SoleStockRow(db.stock, h, d, k)
    ensures var r := ApplyTrade(db, a);
      && T.SoleStockRow(r.stock, h, d, k) && r.shops == db.shops
      && InCirculation(r, k, d) == InCirculation(db, k, d)
  {
    match a
    case Purchase(_, j, target, quantity, newId, pick) => PurchaseCirculates(db, h, j, target, quantity, newId, pick, d, k);
    case Sale(_, i, quantity, newStock, pick) => SaleCirculates(db, h, i, quantity, newStock, pick, d, k);
  }

  /** Trades at the shop, and whatever neither makes nor destroys units nor edits shops. */
  predicate Circulating(a: Action, h: ShopId) {
    if a.OnTrade? then a.trade.h == h else Moving(a) && !a.OnSetup?
  }

  /** The two have the same shops and prices. */
  ghost predicate SamePrices(db: DB, r: DB) {
    && r.shops == db.shops && r.catalog == db.catalog
    && (forall p :: p in db.parties ==> p in r.parties && r.parties[p].modifier == db.parties[p].modifier)
  }

  /** And the same stock. */
  ghost predicate SameShops(db: DB, r: DB) {
    SamePrices(db, r) && r.stock == db.stock
  }

  lemma LeftShops(db: DB, u: UserId, p: PartyId)
    requires Valid(db)
    ensures SameShops(db, WithoutCharacterOf(db, u, p))
  {
  }

  lemma BankerShops(db: DB, left: DB, r: DB, u: UserId, p: PartyId)
    requires SameShops(db, left) && p in left.parties
    requires r == left.(seats := r.seats, parties := WithoutBanker(left.parties, u, p))
    ensures SameShops(db, r)
  {
  }

  lemma DepartShops(db: DB, u: UserId, p: PartyId, now: Time)
    requires Valid(db) && CanDepart(db, u, p)
    ensures SameShops(db, Depart(db, u, p, now))
  {
    LeftShops(db, u, p);
    BankerShops(db, WithoutCharacterOf(db, u, p), Depart(db, u, p, now), u, p);
  }

  lemma OfficeShops(db: DB, p: PartyId, u: UserId, v: UserId, now: Time, banker: Option<UserId>)
    ensures SameShops(db, Join(db, u, p, now))
    ensures p in db.parties ==> SameShops(db, SetBanker(db, p, banker)) && SameShops(db, Archive(db, u, p, now))
    ensures p in db.parties && Seat(u, p, Dm) in db.seats ==> SameShops(db, TransferDm(db, p, u, v, now))
  {
  }

  lemma FoundShops(db: DB, u: UserId, p: PartyId, pool: StashId, loot: StashId, character: Option<NewCharacter>, now: Time)
    requires p !in db.parties
    ensures SameShops(db, Found(db, u, p, pool, loot, character, now))
  {
  }

  lemma PartyActionShops(db: DB, a: PartyAction)
    requires Valid(db) && LegalOnParty(db, a)
    ensures SameShops(db, ApplyParty(db, a))
  {
    match a
    case Bootstrap(u, p, pool, loot, character, now) => FoundShops(db, u, p, pool, loot, character, now);
    case JoinParty(u, p, now) => OfficeShops(db, p, u, u, now, None);
    case LeaveParty(u, p, now) =>
      if Sole(db.seats, u, p) {
        OfficeShops(db, p, u, u, now, None);
      } else {
        DepartShops(db, u, p, now);
      }
    case KickPlayer(actor, u, p, now) => DepartShops(db, u, p, now);
    case DmTransfer(p, outgoing, incoming, now) => OfficeShops(db, p, outgoing, incoming, now, None);
    case AppointBanker(p, u) => OfficeShops(db, p, u, u, 0, Some(u));
    case RevokeBanker(p) => OfficeShops(db, p, 0, 0, 0, None);
  }

  lemma StashActionShops(db: DB, a: StashAction)
    requires Valid(db) && LegalOnStashes(db, a)
    ensures SameShops(db, ApplyStashes(db, a))
  {
  }

  lemma ShopsUntouched(db: DB, a: Action)
    requires Valid(db) && Legal(db, a) && !a.OnTrade? && !a.OnSetup?
    ensures SameShops(db, Apply(db, a))
  {
    match a
    case OnParty(x) => PartyActionShops(db, x);
    case OnStashes(x) => StashActionShops(db, x);
    case _ =>
  }

  lemma ActionCirculates(db: DB, a: Action, h: ShopId, d: DefId, k: StockId)
    requires Valid(db) && Legal(db, a) && Circulating(a, h) && T.SoleStockRow(db.stock, h, d, k)
    ensures var r := Apply(db, a);
      && T.SoleStockRow(r.stock, h, d, k) && r.shops == db.shops && h in r.shops
      && InCirculation(r, k, d) == InCirculation(db, k, d)
  {
    assert StockOk(db.shops, db.stock[k]);
    if a.OnTrade? {
      TradeCirculates(db, a.trade, h, d, k);
    } else {
      ShopsUntouched(db, a);
      MovingAdds(db, a, db.shops[h].party);
      ActionAccounted(db, a, db.shops[h].party);
    }
  }

  /** Over every run of such actions the party and its shop's row together keep every unit. */
  lemma {:induction false} UnitsCirculate(db: DB, run: seq<Action>, h: ShopId, d: DefId, k: StockId)
    requires Valid(db) && LegalRun(db, run) && T.SoleStockRow(db.stock, h, d, k)
    requires forall n :: 0 <= n < |run| ==> Circulating(run[n], h)
    ensures var r := Run(db, run);
      && T.SoleStockRow(r.stock, h, d, k) && h in db.shops && h in r.shops
      && InCirculation(r, k, d) == InCirculation(db, k, d)
    decreases |run|
  {
    assert StockOk(db.shops, db.stock[k]);
    if run != [] {
      ActionSafe(db, run[0]);
      ActionCirculates(db, run[0], h, d, k);
      UnitsCirculate(Apply(db, run[0]), run[1..], h, d, k);
    }
  }
}
