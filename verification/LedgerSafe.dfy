/** Every action keeps the tables sound. */
module LedgerSafe {
  import opened Ledger
  import opened Members
  import opened MembersSafe
  import opened Tables
  import opened Wrappers
  import C = CoinRows
  import T = Trade

  // ---------------------------------------------------------------- soundness of one action

  lemma PartySafe(db: DB, a: PartyAction)
    requires Valid(db) && LegalOnParty(db, a)
    ensures Valid(ApplyParty(db, a))
  {
    match a
    case Bootstrap(u, p, pool, loot, character, now) => FoundSafe(db, u, p, pool, loot, character, now);
    case JoinParty(u, p, now) => JoinSafe(db, u, p, now);
    case LeaveParty(u, p, now) =>
      if Sole(db.seats, u, p) {
        ArchiveSafe(db, u, p, now);
      } else {
        DepartSafe(db, u, p, now);
      }
    case KickPlayer(actor, u, p, now) => DepartSafe(db, u, p, now);
    case DmTransfer(p, outgoing, incoming, now) => TransferDmSafe(db, p, outgoing, incoming, now);
    case AppointBanker(p, u) => BankerSafe(db, p, Some(u));
    case RevokeBanker(p) => BankerSafe(db, p, None);
  }

  lemma StashesSafe(db: DB, a: StashAction)
    requires Valid(db) && LegalOnStashes(db, a)
    ensures Valid(ApplyStashes(db, a))
  {
    match a
    case CreateCharacter(u, p, c, inventory, now) => AddCharacterSafe(db, u, p, c, inventory, now);
    case DropCharacter(c) => DeleteCharacterSafe(db, c);
    case NewStash(c, s) => CreateStashSafe(db, c, s);
    case DropStash(s) => DeleteStashSafe(db, s);
  }

  lemma CoinsSafe(db: DB, a: CoinAction)
    requires Valid(db) && LegalOnCoins(db, a)
    ensures HoldingsOk(db.stashes, ApplyCoins(db, a))
  {
    match a
    case CurrencyChange(s, delta) =>
    case CurrencyTransfer(from, to, delta) =>
    case SplitEvenly(pool, recipients) =>
      RecipientsHold(db, pool, recipients);
      C.SplitSolvent(db.holdings, pool, Inventories(db.characters, recipients));
  }

  lemma ItemsSafe(db: DB, a: ItemAction)
    requires ItemsOk(db.stashes, db.catalog, db.items) && LegalOnItems(db, a)
    ensures ItemsOk(db.stashes, db.catalog, ApplyItems(db, a))
  {
    var items := ApplyItems(db, a);
    forall i | i in items ensures ItemOk(db.stashes, db.catalog, items[i]) {
      if i in db.items {
        assert ItemOk(db.stashes, db.catalog, db.items[i]);
      }
    }
  }

  lemma SetupItems(db: DB, a: SetupAction)
    requires Valid(db) && LegalOnSetup(db, a)
    ensures var r := ApplySetup(db, a); ItemsOk(r.stashes, r.catalog, r.items) && CatalogOk(r.catalog)
  {
    var r := ApplySetup(db, a);
    forall i | i in r.items ensures ItemOk(r.stashes, r.catalog, r.items[i]) {
      assert ItemOk(db.stashes, db.catalog, db.items[i]);
    }
  }

  lemma SetupShops(db: DB, a: SetupAction)
    requires Valid(db) && LegalOnSetup(db, a)
    ensures var r := ApplySetup(db, a); ShopsOk(r.parties, r.shops, r.stock)
  {
    var r := ApplySetup(db, a);
    forall k | k in r.stock ensures StockOk(r.shops, r.stock[k]) {
      if k in db.stock {
        assert StockOk(db.shops, db.stock[k]);
      }
    }
  }

  lemma SetupSafe(db: DB, a: SetupAction)
    requires Valid(db) && LegalOnSetup(db, a)
    ensures Valid(ApplySetup(db, a))
  {
    SetupItems(db, a);
    SetupShops(db, a);
  }

  lemma TradeSafe(db: DB, a: TradeAction)
    requires Valid(db) && LegalOnTrade(db, a)
    ensures Valid(ApplyTrade(db, a))
  {
    match a
    case Purchase(h, k, target, quantity, newId, pick) => T.PurchaseSafe(db, h, k, target, quantity, newId, pick);
    case Sale(h, i, quantity, newStock, stockPick) => T.SaleSafe(db, h, i, quantity, newStock, stockPick);
  }

  /** Every action the checks let through keeps every invariant of the tables. */
  lemma ActionSafe(db: DB, a: Action)
    requires Valid(db) && Legal(db, a)
    ensures Valid(Apply(db, a))
  {
    match a
    case OnParty(x) => PartySafe(db, x);
    case OnStashes(x) => StashesSafe(db, x);
    case OnCoins(x) => CoinsSafe(db, x);
    case OnItems(x) => ItemsSafe(db, x);
    case OnTrade(x) => TradeSafe(db, x);
    case OnSetup(x) => SetupSafe(db, x);
  }
}
