/** What a party owns in all, and how each action changes it. */
module Totals {
  import opened Currency
  import opened Ledger
  import opened MapSums
  import opened Members
  import opened MembersSafe
  import opened Tables
  import opened Wrappers
  import C = CoinRows
  import I = ItemRows
  import T = Trade

  /** How many units of a definition a party owns, over all its stashes. */
  ghost function PartyQuantity(db: DB, p: PartyId, d: DefId): int {
    MapSum(db.items, Quantity(db.stashes, db.characters, p, d))
  }

  /** How many coins of a denomination a party owns, over all its stashes. */
  ghost function PartyCoins(db: DB, p: PartyId, d: Denom): int {
    MapSum(db.holdings, CoinsHeld(db.stashes, db.characters, p, d))
  }

  predicate BelongsTo(db: DB, s: StashId, p: PartyId) {
    PartyOf(db.stashes, db.characters, s) == Some(p)
  }

  // ---------------------------------------------------------------- units

  ghost function UnitsFromItems(db: DB, a: ItemAction, p: PartyId, d: DefId): int
    requires LegalOnItems(db, a)
  {
    match a
    case Acquire(s, e, quantity, _, _, _) => if e == d && BelongsTo(db, s, p) then quantity else 0
    case Consume(i, quantity) =>
      var row := db.items[i];
      if row.definition == d && BelongsTo(db, row.stash, p)
      then -(if quantity < row.quantity then quantity else row.quantity) else 0
    case _ => 0
  }

  ghost function UnitsFromTrade(db: DB, a: TradeAction, p: PartyId, d: DefId): int
    requires LegalOnTrade(db, a)
  {
    match a
    case Purchase(_, k, target, quantity, _, _) =>
      if db.stock[k].definition == d && BelongsTo(db, target, p) then quantity else 0
    case Sale(_, i, quantity, _, _) =>
      if db.items[i].definition == d && BelongsTo(db, db.items[i].stash, p) then -quantity else 0
  }

  /** The units of a definition an action adds to a party: only acquiring, consuming and trading do. */
  ghost function ItemChange(db: DB, a: Action, p: PartyId, d: DefId): int
    requires Legal(db, a)
  {
    match a
    case OnItems(x) => UnitsFromItems(db, x, p, d)
    case OnTrade(x) => UnitsFromTrade(db, x, p, d)
    case _ => 0
  }

  ghost function Counted(stashes: Stashes, characters: Characters, p: PartyId, d: DefId): (DefId, StashId) -> bool {
    (e: DefId, s: StashId) => e == d && PartyOf(stashes, characters, s) == Some(p)
  }

  lemma QuantityCounts(stashes: Stashes, characters: Characters, p: PartyId, d: DefId)
    ensures I.CountsQuantity(Quantity(stashes, characters, p, d), Counted(stashes, characters, p, d))
  {
  }

  lemma ItemsAccounted(db: DB, a: ItemAction, p: PartyId, d: DefId)
    requires Valid(db) && LegalOnItems(db, a)
    ensures MapSum(ApplyItems(db, a), Quantity(db.stashes, db.characters, p, d))
         == PartyQuantity(db, p, d) + UnitsFromItems(db, a, p, d)
  {
    var weight, counted := Quantity(db.stashes, db.characters, p, d), Counted(db.stashes, db.characters, p, d);
    QuantityCounts(db.stashes, db.characters, p, d);
    match a
    case Acquire(s, e, quantity, notes, newId, pick) =>
      AcquireKey(db, s, e, notes, pick);
      I.StackSum(db.items, pick, newId, I.NewRow(s, e, quantity, notes), weight, counted);
    case Consume(i, quantity) => I.ConsumeSum(db.items, i, quantity, weight, counted);
    case Transfer(i, quantity, to, into, newId, pick) =>
      I.TransferSum(db.items, i, quantity, to, into, newId, pick, weight, counted);
    case Split(i, quantity, newId) => I.SplitSum(db.items, i, quantity, newId, weight, counted);
    case SetFlag(i, flag, newId) => I.SetFlagSum(db.items, i, flag, newId, weight, counted);
    case ClearFlag(i, flag, pick) => I.ClearFlagSum(db.items, i, flag, pick, weight, counted);
    case EditItem(i, charges, notes, details) =>
      SumWrite(db.items, weight, i, db.items[i].(charges := charges, notes := notes, details := details));
  }

  lemma AcquireKey(db: DB, s: StashId, d: DefId, notes: Option<string>, pick: Option<ItemId>)
    requires I.FindFirst(db.items, pick, I.StacksWith(s, d, notes))
    ensures pick.Some? ==> pick.value in db.items && db.items[pick.value].definition == d && db.items[pick.value].stash == s
  {
    if pick.Some? {
      assert I.StacksWith(s, d, notes)(pick.value, db.items[pick.value]);
    }
  }

  lemma TradeItemsAccounted(db: DB, a: TradeAction, p: PartyId, d: DefId)
    requires Valid(db) && LegalOnTrade(db, a)
    ensures PartyQuantity(ApplyTrade(db, a), p, d) == PartyQuantity(db, p, d) + UnitsFromTrade(db, a, p, d)
  {
    var weight, counted := Quantity(db.stashes, db.characters, p, d), Counted(db.stashes, db.characters, p, d);
    QuantityCounts(db.stashes, db.characters, p, d);
    match a
    case Purchase(h, k, target, quantity, newId, pick) =>
      T.PurchaseMovesUnits(db, h, k, target, quantity, newId, pick, weight, counted);
    case Sale(h, i, quantity, newStock, stockPick) =>
      T.SaleMovesUnits(db, h, i, quantity, newStock, stockPick, weight, counted);
  }

  // ---------------------------------------------------------------- coins

  ghost function CoinsFromCoins(db: DB, a: CoinAction, p: PartyId): Coins
    requires LegalOnCoins(db, a)
  {
    match a
    case CurrencyChange(s, delta) => if BelongsTo(db, s, p) then delta else NO_COINS
    case CurrencyTransfer(_, _, _) => NO_COINS
    case SplitEvenly(pool, recipients) =>
      if BelongsTo(db, pool, p) then C.Exchange(db.holdings[pool], |recipients|) else NO_COINS
  }

  ghost function TradingStash(db: DB, a: TradeAction): StashId
    requires LegalOnTrade(db, a)
  {
    if a.Purchase? then a.target else db.items[a.i].stash
  }

  /** A trade changes the holding it is paid from or to anew, after adding its price. */
  ghost function CoinsFromTrade(db: DB, a: TradeAction, p: PartyId): Coins
    requires LegalOnTrade(db, a)
  {
    var s := TradingStash(db, a);
    if BelongsTo(db, s, p) then Minus(Change(ToCopper(db.holdings[s]) + PriceOf(db, a)), db.holdings[s]) else NO_COINS
  }

  /** The coins an action adds to a party. */
  ghost function CoinChange(db: DB, a: Action, p: PartyId): Coins
    requires Legal(db, a)
  {
    match a
    case OnCoins(x) => CoinsFromCoins(db, x, p)
    case OnTrade(x) => CoinsFromTrade(db, x, p)
    case _ => NO_COINS
  }

  /** What a trade is worth to the party in copper. */
  ghost function PriceOf(db: DB, a: TradeAction): int
    requires LegalOnTrade(db, a)
  {
    match a
    case Purchase(h, k, target, quantity, _, _) => -(T.UnitCost(db, h, k) * quantity)
    case Sale(h, i, quantity, _, _) => T.SellUnit(db, h, db.items[i].definition) * quantity
  }

  /** What an action adds to a party in copper: an even split nothing, a trade its price. */
  ghost function WorthChange(db: DB, a: Action, p: PartyId): int
    requires Legal(db, a)
  {
    match a
    case OnCoins(CurrencyChange(s, delta)) => if BelongsTo(db, s, p) then ToCopper(delta) else 0
    case OnTrade(x) => if BelongsTo(db, TradingStash(db, x), p) then PriceOf(db, x) else 0
    case _ => 0
  }

  /** What a trade leaves in the stash it is paid from or to, and nowhere else. */
  lemma TradeHolding(db: DB, a: TradeAction)
    requires Valid(db) && LegalOnTrade(db, a)
    ensures var s := TradingStash(db, a);
      && s in db.holdings && ToCopper(db.holdings[s]) + PriceOf(db, a) >= 0
      && ApplyTrade(db, a).holdings == db.holdings[s := Change(ToCopper(db.holdings[s]) + PriceOf(db, a))]
  {
    match a
    case Purchase(h, k, target, quantity, newId, pick) =>
      assert ToCopper(db.holdings[target]) - T.UnitCost(db, h, k) * quantity == ToCopper(db.holdings[target]) + PriceOf(db, a);
    case Sale(h, i, quantity, newStock, stockPick) =>
      var s := db.items[i].stash;
      assert db.holdings[s].NonNegative();
      assert T.SellUnit(db, h, db.items[i].definition) * quantity >= 0;
  }

  lemma TradeWorth(db: DB, a: TradeAction)
    requires Valid(db) && LegalOnTrade(db, a)
    ensures var held := db.holdings[TradingStash(db, a)];
      ToCopper(Minus(Change(ToCopper(held) + PriceOf(db, a)), held)) == PriceOf(db, a)
  {
    TradeHolding(db, a);
    ChangeExact(ToCopper(db.holdings[TradingStash(db, a)]) + PriceOf(db, a));
  }

  /** The coins an action adds are worth just that. */
  lemma ChangeWorth(db: DB, a: Action, p: PartyId)
    requires Valid(db) && Legal(db, a)
    ensures ToCopper(CoinChange(db, a, p)) == WorthChange(db, a, p)
  {
    match a
    case OnCoins(x) => CoinsWorth(db, x, p);
    case OnTrade(x) => TradeWorth(db, x);
    case _ =>
  }

  lemma CoinsWorth(db: DB, a: CoinAction, p: PartyId)
    requires LegalOnCoins(db, a)
    ensures ToCopper(CoinsFromCoins(db, a, p)) == WorthChange(db, OnCoins(a), p)
  {
    if a.SplitEvenly? {
      C.ExchangeWorthless(db.holdings[a.pool], |a.recipients|);
    }
  }

  ghost function InParty(stashes: Stashes, characters: Characters, p: PartyId): StashId -> bool {
    (s: StashId) => PartyOf(stashes, characters, s) == Some(p)
  }

  lemma CoinsCount(stashes: Stashes, characters: Characters, p: PartyId, d: Denom)
    ensures C.CountsCoin(CoinsHeld(stashes, characters, p, d), InParty(stashes, characters, p), d)
  {
  }

  lemma CoinsAccounted(db: DB, a: CoinAction, p: PartyId, d: Denom)
    requires Valid(db) && LegalOnCoins(db, a)
    ensures MapSum(ApplyCoins(db, a), CoinsHeld(db.stashes, db.characters, p, d))
         == PartyCoins(db, p, d) + CoinsFromCoins(db, a, p).Get(d)
  {
    var weight, counted := CoinsHeld(db.stashes, db.characters, p, d), InParty(db.stashes, db.characters, p);
    CoinsCount(db.stashes, db.characters, p, d);
    match a
    case CurrencyChange(s, delta) => C.WriteSum(db.holdings, s, Add(db.holdings[s], delta), weight, counted, d);
    case CurrencyTransfer(from, to, delta) => C.CurrencyTransferSum(db.holdings, from, to, delta, weight, counted, d);
    case SplitEvenly(pool, recipients) =>
      RecipientsHold(db, pool, recipients);
      C.SplitSum(db.holdings, pool, Inventories(db.characters, recipients), weight, counted, d);
  }

  lemma TradeCoinsAccounted(db: DB, a: TradeAction, p: PartyId, d: Denom)
    requires Valid(db) && LegalOnTrade(db, a)
    ensures PartyCoins(ApplyTrade(db, a), p, d) == PartyCoins(db, p, d) + CoinsFromTrade(db, a, p).Get(d)
  {
    TradeHolding(db, a);
    TradeHomes(db, a);
    TradeRewrites(db, a, ApplyTrade(db, a), p, d);
  }

  lemma TradeRewrites(db: DB, a: TradeAction, r: DB, p: PartyId, d: Denom)
    requires LegalOnTrade(db, a) && r.stashes == db.stashes && r.characters == db.characters
    requires var s := TradingStash(db, a);
      s in db.holdings && r.holdings == db.holdings[s := Change(ToCopper(db.holdings[s]) + PriceOf(db, a))]
    ensures PartyCoins(r, p, d) == PartyCoins(db, p, d) + CoinsFromTrade(db, a, p).Get(d)
  {
    var s := TradingStash(db, a);
    HoldingRewritten(db, r, s, r.holdings[s], p, d);
  }

  lemma TradeHomes(db: DB, a: TradeAction)
    requires LegalOnTrade(db, a)
    ensures ApplyTrade(db, a).stashes == db.stashes && ApplyTrade(db, a).characters == db.characters
  {
  }

  lemma HoldingRewritten(db: DB, r: DB, s: StashId, c: Coins, p: PartyId, d: Denom)
    requires s in db.holdings && r.holdings == db.holdings[s := c]
    requires r.stashes == db.stashes && r.characters == db.characters
    ensures PartyCoins(r, p, d)
         == PartyCoins(db, p, d) + (if BelongsTo(db, s, p) then Minus(c, db.holdings[s]) else NO_COINS).Get(d)
  {
    CoinsCount(db.stashes, db.characters, p, d);
    C.WriteSum(db.holdings, s, c, CoinsHeld(db.stashes, db.characters, p, d), InParty(db.stashes, db.characters, p), d);
  }

  // ---------------------------------------------------------------- actions that only move things

  /** Stashes in both states belong to the same party, and those in one only hold nothing. */
  ghost predicate SameHomes(db: DB, r: DB) {
    forall s :: s in db.stashes && s in r.stashes ==>
      PartyOf(r.stashes, r.characters, s) == PartyOf(db.stashes, db.characters, s)
  }

  lemma ItemsStay(db: DB, r: DB, p: PartyId, d: DefId)
    requires ItemsOk(db.stashes, db.catalog, db.items)
    requires SameHomes(db, r) && db.stashes.Keys <= r.stashes.Keys && r.items == db.items
    ensures PartyQuantity(r, p, d) == PartyQuantity(db, p, d)
  {
    forall i | i in db.items
      ensures Quantity(r.stashes, r.characters, p, d)(i, r.items[i]) == Quantity(db.stashes, db.characters, p, d)(i, db.items[i])
    {
      assert ItemOk(db.stashes, db.catalog, db.items[i]);
    }
    SumSame(r.items, Quantity(r.stashes, r.characters, p, d), db.items, Quantity(db.stashes, db.characters, p, d));
  }

  lemma CoinsStay(db: DB, r: DB, p: PartyId, d: Denom)
    requires HoldingsOk(db.stashes, db.holdings) && SameHomes(db, r) && db.stashes.Keys <= r.stashes.Keys
    requires db.holdings.Keys <= r.holdings.Keys
    requires forall s :: s in r.holdings ==> r.holdings[s] == if s in db.holdings then db.holdings[s] else NO_COINS
    ensures PartyCoins(r, p, d) == PartyCoins(db, p, d)
  {
    var f, g := CoinsHeld(r.stashes, r.characters, p, d), CoinsHeld(db.stashes, db.characters, p, d);
    SumSplit(r.holdings, f, db.holdings.Keys);
    var kept := Restrict(r.holdings, db.holdings.Keys);
    forall s | s in kept ensures f(s, kept[s]) == g(s, db.holdings[s]) {
      assert s in r.holdings;
    }
    SumSame(kept, f, db.holdings, g);
    SumZero(r.holdings - db.holdings.Keys, f);
  }

  /** Sweeping stashes into one of the same party moves units and coins within the party. */
  lemma SweepItemsStay(db: DB, from: set<StashId>, to: StashId, r: DB, p: PartyId, d: DefId)
    requires Valid(db) && Sweepable(db, from, to)
    requires SameHomes(db, r) && r.stashes.Keys == db.stashes.Keys - from && r.items == I.Sweep(db.items, from, to)
    ensures PartyQuantity(r, p, d) == PartyQuantity(db, p, d)
  {
    forall i | i in db.items
      ensures Quantity(r.stashes, r.characters, p, d)(i, r.items[i]) == Quantity(db.stashes, db.characters, p, d)(i, db.items[i])
    {
      assert ItemOk(db.stashes, db.catalog, db.items[i]);
    }
    SumSame(r.items, Quantity(r.stashes, r.characters, p, d), db.items, Quantity(db.stashes, db.characters, p, d));
  }

  lemma SweepCoinsStay(db: DB, from: set<StashId>, to: StashId, r: DB, p: PartyId, d: Denom)
    requires Valid(db) && Sweepable(db, from, to)
    requires SameHomes(db, r) && r.stashes.Keys == db.stashes.Keys - from && r.holdings == C.Sweep(db.holdings, from, to)
    ensures PartyCoins(r, p, d) == PartyCoins(db, p, d)
  {
    var f, g := CoinsHeld(r.stashes, r.characters, p, d), CoinsHeld(db.stashes, db.characters, p, d);
    CoinsCount(db.stashes, db.characters, p, d);
    C.SweepSum(db.holdings, from, to, g, InParty(db.stashes, db.characters, p), d);
    SumSame(r.holdings, f, r.holdings, g);
  }

  /** `r` differs from `db` by moving units and coins within their parties. */
  ghost predicate Moves(db: DB, r: DB) {
    && (forall p, d :: PartyQuantity(r, p, d) == PartyQuantity(db, p, d))
    && (forall p, d :: PartyCoins(r, p, d) == PartyCoins(db, p, d))
  }

  lemma NothingMoves(db: DB, r: DB)
    requires r.items == db.items && r.holdings == db.holdings && r.stashes == db.stashes && r.characters == db.characters
    ensures Moves(db, r)
  {
  }

  lemma GrowthMoves(db: DB, r: DB)
    requires Valid(db) && SameHomes(db, r) && db.stashes.Keys <= r.stashes.Keys && r.items == db.items
    requires db.holdings.Keys <= r.holdings.Keys
    requires forall s :: s in r.holdings ==> r.holdings[s] == if s in db.holdings then db.holdings[s] else NO_COINS
    ensures Moves(db, r)
  {
    forall p, d ensures PartyQuantity(r, p, d) == PartyQuantity(db, p, d) {
      ItemsStay(db, r, p, d);
    }
    forall p, d ensures PartyCoins(r, p, d) == PartyCoins(db, p, d) {
      CoinsStay(db, r, p, d);
    }
  }

  lemma SweepMoves(db: DB, from: set<StashId>, to: StashId, r: DB)
    requires Valid(db) && Sweepable(db, from, to)
    requires SameHomes(db, r) && r.stashes.Keys == db.stashes.Keys - from
    requires r.items == I.Sweep(db.items, from, to) && r.holdings == C.Sweep(db.holdings, from, to)
    ensures Moves(db, r)
  {
    forall p, d ensures PartyQuantity(r, p, d) == PartyQuantity(db, p, d) {
      SweepItemsStay(db, from, to, r, p, d);
    }
    forall p, d ensures PartyCoins(r, p, d) == PartyCoins(db, p, d) {
      SweepCoinsStay(db, from, to, r, p, d);
    }
  }

  /** Deleting a character leaves its party everything it had. */
  lemma DeleteCharacterMoves(db: DB, c: CharId)
    requires Valid(db) && CanDeleteCharacter(db, c)
    ensures Moves(db, DeleteCharacter(db, c))
  {
    OwnedSweepable(db, c);
    var r := DeleteCharacter(db, c);
    forall s | s in r.stashes ensures PartyOf(r.stashes, r.characters, s) == PartyOf(db.stashes, db.characters, s) {
      assert StashOk(db.parties, db.characters, s, db.stashes[s]);
    }
    SweepMoves(db, OwnedBy(db.stashes, c), db.parties[db.characters[c].party].loot, r);
  }

  lemma AddCharacterMoves(db: DB, u: UserId, p: PartyId, c: CharId, inventory: StashId, now: Time)
    requires Valid(db) && c !in db.characters && inventory !in db.stashes
    ensures Moves(db, AddCharacter(db, u, p, c, inventory, now))
  {
    var r := AddCharacter(db, u, p, c, inventory, now);
    forall s | s in db.stashes ensures PartyOf(r.stashes, r.characters, s) == PartyOf(db.stashes, db.characters, s) {
      assert StashOk(db.parties, db.characters, s, db.stashes[s]);
    }
    GrowthMoves(db, r);
  }

  lemma StashesMove(db: DB, a: StashAction)
    requires Valid(db) && LegalOnStashes(db, a)
    ensures Moves(db, ApplyStashes(db, a))
  {
    match a
    case CreateCharacter(u, p, c, inventory, now) => AddCharacterMoves(db, u, p, c, inventory, now);
    case DropCharacter(c) => DeleteCharacterMoves(db, c);
    case NewStash(c, s) => GrowthMoves(db, CreateStash(db, c, s));
    case DropStash(s) =>
      DeleteStashSweepable(db, s);
      SweepMoves(db, {s}, LootOf(db, s), DeleteStash(db, s));
  }

  /** Leaving and being kicked leave the party everything the leaver's character had. */
  lemma DepartMoves(db: DB, u: UserId, p: PartyId, now: Time)
    requires Valid(db) && CanDepart(db, u, p)
    ensures Moves(db, Depart(db, u, p, now))
  {
    LinkedDeletable(db, u, p);
    var left := WithoutCharacterOf(db, u, p);
    var c := CharacterOf(db.seats, u, p);
    if c.Some? {
      DeleteCharacterMoves(db, c.value);
    } else {
      NothingMoves(db, left);
    }
    NothingMoves(left, Depart(db, u, p, now));
  }

  lemma FoundMoves(db: DB, u: UserId, p: PartyId, pool: StashId, loot: StashId, character: Option<NewCharacter>, now: Time)
    requires Valid(db) && CanFound(db, p, pool, loot, character)
    ensures Moves(db, Found(db, u, p, pool, loot, character, now))
  {
    var shell := Found(db, u, p, pool, loot, None, now);
    ShellMoves(db, u, p, pool, loot, now);
    FoundSafe(db, u, p, pool, loot, None, now);
    if character.Some? {
      var c := character.value;
      AddCharacterMoves(shell, u, p, c.id, c.inventory, now);
      MovesOn(db, shell, AddCharacter(shell, u, p, c.id, c.inventory, now));
    }
  }

  lemma MovesOn(a: DB, b: DB, c: DB)
    requires Moves(a, b) && Moves(b, c)
    ensures Moves(a, c)
  {
  }

  lemma ShellMoves(db: DB, u: UserId, p: PartyId, pool: StashId, loot: StashId, now: Time)
    requires Valid(db) && CanFound(db, p, pool, loot, None)
    ensures Moves(db, Found(db, u, p, pool, loot, None, now))
  {
    GrowthMoves(db, Found(db, u, p, pool, loot, None, now));
  }

  lemma PartyMoves(db: DB, a: PartyAction)
    requires Valid(db) && LegalOnParty(db, a)
    ensures Moves(db, ApplyParty(db, a))
  {
    match a
    case Bootstrap(u, p, pool, loot, character, now) => FoundMoves(db, u, p, pool, loot, character, now);
    case LeaveParty(u, p, now) =>
      if Sole(db.seats, u, p) {
        NothingMoves(db, Archive(db, u, p, now));
      } else {
        DepartMoves(db, u, p, now);
      }
    case KickPlayer(actor, u, p, now) => DepartMoves(db, u, p, now);
    case _ => NothingMoves(db, ApplyParty(db, a));
  }

  // ---------------------------------------------------------------- any action

  /** Founding, joining, leaving, kicking and the offices; characters and stashes: nothing is gained or lost. */
  lemma MembersAccounted(db: DB, a: Action)
    requires Valid(db) && Legal(db, a) && (a.OnParty? || a.OnStashes?)
    ensures Moves(db, Apply(db, a))
  {
    match a
    case OnParty(x) => PartyMoves(db, x);
    case OnStashes(x) => StashesMove(db, x);
  }

  lemma SetupMoves(db: DB, a: SetupAction)
    requires LegalOnSetup(db, a)
    ensures Moves(db, ApplySetup(db, a))
  {
    NothingMoves(db, ApplySetup(db, a));
  }

  /** `r` owns what `db` does and what the action adds. */
  ghost predicate Accounted(db: DB, a: Action, r: DB, p: PartyId)
    requires Legal(db, a)
  {
    && (forall d :: PartyQuantity(r, p, d) == PartyQuantity(db, p, d) + ItemChange(db, a, p, d))
    && (forall d :: PartyCoins(r, p, d) == PartyCoins(db, p, d) + CoinChange(db, a, p).Get(d))
  }

  lemma MovesAccounted(db: DB, a: Action, r: DB, p: PartyId)
    requires Legal(db, a) && Moves(db, r) && (a.OnParty? || a.OnStashes? || a.OnSetup?)
    ensures Accounted(db, a, r, p)
  {
  }

  lemma CoinActionAccounted(db: DB, a: CoinAction, p: PartyId)
    requires Valid(db) && LegalOnCoins(db, a)
    ensures Accounted(db, OnCoins(a), db.(holdings := ApplyCoins(db, a)), p)
  {
    forall d ensures MapSum(ApplyCoins(db, a), CoinsHeld(db.stashes, db.characters, p, d)) == PartyCoins(db, p, d) + CoinsFromCoins(db, a, p).Get(d) {
      CoinsAccounted(db, a, p, d);
    }
  }

  lemma ItemActionAccounted(db: DB, a: ItemAction, p: PartyId)
    requires Valid(db) && LegalOnItems(db, a)
    ensures Accounted(db, OnItems(a), db.(items := ApplyItems(db, a)), p)
  {
    forall d ensures MapSum(ApplyItems(db, a), Quantity(db.stashes, db.characters, p, d)) == PartyQuantity(db, p, d) + UnitsFromItems(db, a, p, d) {
      ItemsAccounted(db, a, p, d);
    }
  }

  lemma TradeActionAccounted(db: DB, a: TradeAction, p: PartyId)
    requires Valid(db) && LegalOnTrade(db, a)
    ensures Accounted(db, OnTrade(a), ApplyTrade(db, a), p)
  {
    forall d ensures PartyQuantity(ApplyTrade(db, a), p, d) == PartyQuantity(db, p, d) + UnitsFromTrade(db, a, p, d) {
      TradeItemsAccounted(db, a, p, d);
    }
    forall d ensures PartyCoins(ApplyTrade(db, a), p, d) == PartyCoins(db, p, d) + CoinsFromTrade(db, a, p).Get(d) {
      TradeCoinsAccounted(db, a, p, d);
    }
  }

  /** Each action changes the units and coins a party owns by what the action says, and by nothing else. */
  lemma ActionAccounted(db: DB, a: Action, p: PartyId)
    requires Valid(db) && Legal(db, a)
    ensures Accounted(db, a, Apply(db, a), p)
  {
    match a
    case OnCoins(x) => CoinActionAccounted(db, x, p);
    case OnItems(x) => ItemActionAccounted(db, x, p);
    case OnTrade(x) => TradeActionAccounted(db, x, p);
    case OnSetup(x) =>
      SetupMoves(db, x);
      MovesAccounted(db, a, ApplySetup(db, x), p);
    case _ =>
      MembersAccounted(db, a);
      MovesAccounted(db, a, Apply(db, a), p);
  }
}
