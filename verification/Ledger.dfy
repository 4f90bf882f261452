/**
 * The ledger as a state machine over its actions. An action that looks a row up with `findFirst`
 * carries the row it got, so that every choice the database may make is a run of its own.
 */
module Ledger {
  import opened Currency
  import opened Members
  import opened Tables
  import opened Wrappers
  import C = CoinRows
  import I = ItemRows
  import T = Trade

  datatype PartyAction =
    | Bootstrap(u: UserId, p: PartyId, pool: StashId, loot: StashId, character: Option<NewCharacter>, now: Time)
    | JoinParty(u: UserId, p: PartyId, now: Time)
    | LeaveParty(u: UserId, p: PartyId, now: Time)
    | KickPlayer(actor: UserId, u: UserId, p: PartyId, now: Time)
    | DmTransfer(p: PartyId, outgoing: UserId, incoming: UserId, now: Time)
    | AppointBanker(p: PartyId, u: UserId)
    | RevokeBanker(p: PartyId)

  datatype StashAction =
    | CreateCharacter(u: UserId, p: PartyId, c: CharId, inventory: StashId, now: Time)
    | DropCharacter(c: CharId)
    | NewStash(c: CharId, s: StashId)
    | DropStash(s: StashId)

  datatype CoinAction =
    | CurrencyChange(s: StashId, delta: Coins)
    | CurrencyTransfer(from: StashId, to: StashId, delta: Coins)
    | SplitEvenly(pool: StashId, recipients: seq<CharId>)

  datatype ItemAction =
    | Acquire(s: StashId, d: DefId, quantity: int, notes: Option<string>, newId: ItemId, pick: Option<ItemId>)
    | Consume(i: ItemId, quantity: int)
    | Transfer(i: ItemId, quantity: int, to: StashId, into: I.ContainerChange, newId: ItemId, pick: Option<ItemId>)
    | Split(i: ItemId, quantity: int, newId: ItemId)
    | SetFlag(i: ItemId, flag: I.Flag, newId: ItemId)
    | ClearFlag(i: ItemId, flag: I.Flag, pick: Option<ItemId>)
    | EditItem(i: ItemId, charges: Option<int>, notes: Option<string>, details: Details)

  datatype TradeAction =
    | Purchase(h: ShopId, k: StockId, target: StashId, quantity: int, newId: ItemId, pick: Option<ItemId>)
    | Sale(h: ShopId, i: ItemId, quantity: int, newStock: StockId, stockPick: Option<StockId>)

  /** Shops, prices and the catalogue. */
  datatype SetupAction =
    | PutShop(h: ShopId, shop: Shop)
    | DropShop(h: ShopId)
    | PutStock(k: StockId, row: Stock)
    | DropStock(k: StockId)
    | SetModifier(p: PartyId, modifier: real)
    | PutDefinition(d: DefId, definition: Definition)
    | DropDefinition(d: DefId)

  datatype Action =
    | OnParty(party: PartyAction)
    | OnStashes(stashes: StashAction)
    | OnCoins(coins: CoinAction)
    | OnItems(items: ItemAction)
    | OnTrade(trade: TradeAction)
    | OnSetup(setup: SetupAction)

  // ---------------------------------------------------------------- parties

  ghost predicate CanLeave(db: DB, u: UserId, p: PartyId) {
    Open(db.parties, p) && (Sole(db.seats, u, p) || CanDepart(db, u, p))
  }

  ghost predicate LegalOnParty(db: DB, a: PartyAction) {
    match a
    case Bootstrap(u, p, pool, loot, character, now) => CanFound(db, p, pool, loot, character)
    case JoinParty(u, p, now) => CanJoin(db, u, p)
    case LeaveParty(u, p, now) => CanLeave(db, u, p)
    case KickPlayer(actor, u, p, now) => actor != u && CanDepart(db, u, p)
    case DmTransfer(p, outgoing, incoming, now) => CanTransferDm(db, p, outgoing, incoming)
    case AppointBanker(p, u) => CanAppoint(db, p, u)
    case RevokeBanker(p) => Open(db.parties, p)
  }

  ghost function ApplyParty(db: DB, a: PartyAction): DB
    requires Valid(db) && LegalOnParty(db, a)
  {
    match a
    case Bootstrap(u, p, pool, loot, character, now) => Found(db, u, p, pool, loot, character, now)
    case JoinParty(u, p, now) => Join(db, u, p, now)
    case LeaveParty(u, p, now) => if Sole(db.seats, u, p) then Archive(db, u, p, now) else Depart(db, u, p, now)
    case KickPlayer(actor, u, p, now) => Depart(db, u, p, now)
    case DmTransfer(p, outgoing, incoming, now) => TransferDm(db, p, outgoing, incoming, now)
    case AppointBanker(p, u) => SetBanker(db, p, Some(u))
    case RevokeBanker(p) => SetBanker(db, p, None)
  }

  // ---------------------------------------------------------------- characters and stashes

  ghost predicate LegalOnStashes(db: DB, a: StashAction) {
    match a
    case CreateCharacter(u, p, c, inventory, now) => CanAddCharacter(db, u, p, c, inventory)
    case DropCharacter(c) => CanDeleteCharacter(db, c)
    case NewStash(c, s) => CanCreateStash(db, c, s)
    case DropStash(s) => CanDeleteStash(db, s)
  }

  ghost function ApplyStashes(db: DB, a: StashAction): DB
    requires Valid(db) && LegalOnStashes(db, a)
  {
    match a
    case CreateCharacter(u, p, c, inventory, now) => AddCharacter(db, u, p, c, inventory, now)
    case DropCharacter(c) => DeleteCharacter(db, c)
    case NewStash(c, s) => CreateStash(db, c, s)
    case DropStash(s) => DeleteStash(db, s)
  }

  // ---------------------------------------------------------------- coins

  predicate CanMoveCoins(db: DB, from: StashId, to: StashId, delta: Coins) {
    && from in db.holdings && to in db.holdings && Usable(db, from) && SameParty(db, from, to)
    && delta.NonNegative() && Minus(db.holdings[from], delta).NonNegative()
  }

  predicate CanSplitEvenly(db: DB, pool: StashId, recipients: seq<CharId>) {
    && pool in db.holdings && Usable(db, pool) && recipients != []
    && forall n :: 0 <= n < |recipients| ==>
         recipients[n] in db.characters && PartyOf(db.stashes, db.characters, pool) == Some(db.characters[recipients[n]].party)
  }

  function Inventories(characters: Characters, recipients: seq<CharId>): (r: seq<StashId>)
    requires forall n :: 0 <= n < |recipients| ==> recipients[n] in characters
    ensures |r| == |recipients|
    ensures forall n :: 0 <= n < |r| ==> r[n] == characters[recipients[n]].inventory
  {
    seq(|recipients|, (n: nat) requires n < |recipients| => characters[recipients[n]].inventory)
  }

  predicate LegalOnCoins(db: DB, a: CoinAction) {
    match a
    case CurrencyChange(s, delta) => s in db.holdings && Usable(db, s) && Add(db.holdings[s], delta).NonNegative()
    case CurrencyTransfer(from, to, delta) => CanMoveCoins(db, from, to, delta)
    case SplitEvenly(pool, recipients) => CanSplitEvenly(db, pool, recipients)
  }

  lemma RecipientsHold(db: DB, pool: StashId, recipients: seq<CharId>)
    requires Valid(db) && CanSplitEvenly(db, pool, recipients)
    ensures var to := Inventories(db.characters, recipients);
      forall n :: 0 <= n < |to| ==> to[n] in db.holdings && SameParty(db, to[n], pool)
  {
    var to := Inventories(db.characters, recipients);
    forall n | 0 <= n < |to| ensures to[n] in db.holdings && SameParty(db, to[n], pool) {
      var c := recipients[n];
      assert c in db.characters;
      assert db.stashes[to[n]] == Stash(CharacterScope, true, Some(c), None);
    }
  }

  ghost function ApplyCoins(db: DB, a: CoinAction): Holdings
    requires Valid(db) && LegalOnCoins(db, a)
  {
    match a
    case CurrencyChange(s, delta) => C.Deposit(db.holdings, s, delta)
    case CurrencyTransfer(from, to, delta) => C.CurrencyTransfer(db.holdings, from, to, delta)
    case SplitEvenly(pool, recipients) =>
      RecipientsHold(db, pool, recipients);
      C.SplitAmong(db.holdings, pool, Inventories(db.characters, recipients))
  }

  // ---------------------------------------------------------------- items

  ghost predicate CanAcquire(db: DB, s: StashId, d: DefId, quantity: int, notes: Option<string>, newId: ItemId, pick: Option<ItemId>) {
    && quantity >= 1 && d in db.catalog && s in db.stashes && Usable(db, s) && newId !in db.items
    && I.FindFirst(db.items, pick, I.StacksWith(s, d, notes))
  }

  ghost predicate CanMove(db: DB, i: ItemId, quantity: int, to: StashId, newId: ItemId, pick: Option<ItemId>) {
    && i in db.items && quantity >= 1 && to in db.stashes && Usable(db, to) && SameParty(db, db.items[i].stash, to)
    && (if I.MovesAll(db.items, i, quantity) then I.FindFirst(db.items, pick, I.TransferStacksWith(db.items[i], i, to))
        else pick.None? && newId !in db.items)
  }

  /** A row is packed only into another, top-level row of the stash it goes to. */
  predicate CanPack(items: Items, i: ItemId, to: StashId, into: I.ContainerChange) {
    into.Some? && into.value.Some? ==>
      var c := into.value.value;
      c != i && c in items && items[c].container.None? && items[c].stash == to
  }

  ghost predicate CanTransfer(db: DB, i: ItemId, quantity: int, to: StashId, into: I.ContainerChange, newId: ItemId, pick: Option<ItemId>) {
    CanMove(db, i, quantity, to, newId, pick) && CanPack(db.items, i, to, into)
  }

  /** Flags are set on rows of an Inventory only. */
  predicate CanSetFlag(db: DB, i: ItemId, newId: ItemId) {
    && i in db.items && db.items[i].stash in db.stashes && db.stashes[db.items[i].stash].carried
    && (db.items[i].quantity > 1 ==> newId !in db.items)
  }

  ghost predicate CanClearFlag(items: Items, i: ItemId, flag: I.Flag, pick: Option<ItemId>) {
    i in items && I.RestackPick(items, i, I.WithFlag(items[i], flag, false), pick)
  }

  ghost predicate LegalOnItems(db: DB, a: ItemAction) {
    match a
    case Acquire(s, d, quantity, notes, newId, pick) => CanAcquire(db, s, d, quantity, notes, newId, pick)
    case Consume(i, quantity) => i in db.items && quantity >= 1
    case Transfer(i, quantity, to, into, newId, pick) => CanTransfer(db, i, quantity, to, into, newId, pick)
    case Split(i, quantity, newId) => i in db.items && 1 <= quantity < db.items[i].quantity && newId !in db.items
    case SetFlag(i, flag, newId) => CanSetFlag(db, i, newId)
    case ClearFlag(i, flag, pick) => CanClearFlag(db.items, i, flag, pick)
    case EditItem(i, charges, notes, details) => i in db.items && (charges.Some? ==> charges.value >= 0)
  }

  ghost function ApplyItems(db: DB, a: ItemAction): Items
    requires LegalOnItems(db, a)
  {
    match a
    case Acquire(s, d, quantity, notes, newId, pick) => I.Stack(db.items, pick, newId, I.NewRow(s, d, quantity, notes))
    case Consume(i, quantity) => I.Consume(db.items, i, quantity)
    case Transfer(i, quantity, to, into, newId, pick) => I.Transfer(db.items, i, quantity, to, into, newId, pick)
    case Split(i, quantity, newId) => I.Split(db.items, i, quantity, newId)
    case SetFlag(i, flag, newId) => I.SetFlag(db.items, i, flag, newId)
    case ClearFlag(i, flag, pick) => I.ClearFlag(db.items, i, flag, pick)
    case EditItem(i, charges, notes, details) =>
      db.items[i := db.items[i].(charges := charges, notes := notes, details := details)]
  }

  /**
   * Whether the database accepts the rows the action writes: inserting a row next to one inside a
   * container, which the reducer never questions, fails if that container is inside another.
   */
  predicate Accepted(items: Items, a: ItemAction) {
    match a
    case Split(i, _, _) => i in items && I.Shallow(items, items[i].container)
    case SetFlag(i, _, _) => i in items && (items[i].quantity > 1 ==> I.Shallow(items, items[i].container))
    case _ => true
  }

  // ---------------------------------------------------------------- trade, shops and the catalogue

  ghost predicate LegalOnTrade(db: DB, a: TradeAction) {
    match a
    case Purchase(h, k, target, quantity, newId, pick) =>
      T.CanPurchase(db, h, k, target, quantity, newId) && T.PurchasePick(db, k, target, pick)
    case Sale(h, i, quantity, newStock, stockPick) =>
      T.CanSell(db, h, i, quantity, newStock) && T.SalePick(db, h, db.items[i].definition, stockPick)
  }

  ghost function ApplyTrade(db: DB, a: TradeAction): DB
    requires LegalOnTrade(db, a)
  {
    match a
    case Purchase(h, k, target, quantity, newId, pick) => T.Purchase(db, h, k, target, quantity, newId, pick)
    case Sale(h, i, quantity, newStock, stockPick) => T.Sell(db, h, i, quantity, newStock, stockPick)
  }

  predicate LegalOnSetup(db: DB, a: SetupAction) {
    match a
    case PutShop(h, shop) =>
      Open(db.parties, shop.party) && shop.modifier > 0.0 && shop.rate > 0.0
    case DropShop(h) => h in db.shops
    case PutStock(k, row) => row.shop in db.shops && row.quantity >= UNLIMITED && (row.override.Some? ==> row.override.value >= 0)
    case DropStock(k) => k in db.stock
    case SetModifier(p, modifier) => Open(db.parties, p) && modifier > 0.0
    case PutDefinition(d, definition) => definition.cost.Some? ==> definition.cost.value.amount >= 0.0
    case DropDefinition(d) => forall i :: i in db.items ==> db.items[i].definition != d
  }

  function ApplySetup(db: DB, a: SetupAction): DB
    requires LegalOnSetup(db, a)
  {
    match a
    case PutShop(h, shop) => db.(shops := db.shops[h := shop])
    case DropShop(h) => db.(shops := db.shops - {h}, stock := map k | k in db.stock && db.stock[k].shop != h :: db.stock[k])
    case PutStock(k, row) => db.(stock := db.stock[k := row])
    case DropStock(k) => db.(stock := db.stock - {k})
    case SetModifier(p, modifier) => db.(parties := db.parties[p := db.parties[p].(modifier := modifier)])
    case PutDefinition(d, definition) => db.(catalog := db.catalog[d := definition])
    case DropDefinition(d) => db.(catalog := db.catalog - {d})
  }

  // ---------------------------------------------------------------- any action, any run

  /** What the guard map, the reducer and the action's own checks let through. */
  ghost predicate Legal(db: DB, a: Action) {
    match a
    case OnParty(x) => LegalOnParty(db, x)
    case OnStashes(x) => LegalOnStashes(db, x)
    case OnCoins(x) => LegalOnCoins(db, x)
    case OnItems(x) => LegalOnItems(db, x)
    case OnTrade(x) => LegalOnTrade(db, x)
    case OnSetup(x) => LegalOnSetup(db, x)
  }

  ghost function Apply(db: DB, a: Action): DB
    requires Valid(db) && Legal(db, a)
  {
    match a
    case OnParty(x) => ApplyParty(db, x)
    case OnStashes(x) => ApplyStashes(db, x)
    case OnCoins(x) => db.(holdings := ApplyCoins(db, x))
    case OnItems(x) => db.(items := ApplyItems(db, x))
    case OnTrade(x) => ApplyTrade(db, x)
    case OnSetup(x) => ApplySetup(db, x)
  }

  // ---------------------------------------------------------------- requests

  /** The action with another answer of `findFirst`. */
  function Picking(a: ItemAction, pick: Option<ItemId>): ItemAction {
    match a
    case Acquire(s, d, quantity, notes, newId, _) => ItemAction.Acquire(s, d, quantity, notes, newId, pick)
    case Transfer(i, quantity, to, into, newId, _) => ItemAction.Transfer(i, quantity, to, into, newId, pick)
    case ClearFlag(i, flag, _) => ItemAction.ClearFlag(i, flag, pick)
    case _ => a
  }

  function Unpicked(a: TradeAction): TradeAction {
    match a
    case Purchase(h, k, target, quantity, newId, _) => TradeAction.Purchase(h, k, target, quantity, newId, None)
    case Sale(h, i, quantity, newStock, _) => TradeAction.Sale(h, i, quantity, newStock, None)
  }

  predicate SameItemRequest(a: ItemAction, b: ItemAction) {
    Picking(a, None) == Picking(b, None)
  }

  predicate SameTradeRequest(a: TradeAction, b: TradeAction) {
    Unpicked(a) == Unpicked(b)
  }

  /** The two differ at most in the rows `findFirst` picked. */
  predicate SameRequest(a: Action, b: Action) {
    match a
    case OnItems(x) => b.OnItems? && SameItemRequest(x, b.items)
    case OnTrade(x) => b.OnTrade? && SameTradeRequest(x, b.trade)
    case _ => a == b
  }
}
