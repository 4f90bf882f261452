/**
 * The server's tables (apps/server/prisma/schema.prisma), each a map from its key, and what every
 * reachable state of them keeps. Ids are opaque and only compared; here they are integers.
 */
module Tables {
  import opened Currency
  import opened Wrappers
  import P = Pricing

  type UserId = int
  type PartyId = int
  type CharId = int
  type StashId = int
  type ItemId = int
  type DefId = int
  type ShopId = int
  type StockId = int
  type Time = int

  datatype Party = Party(owner: UserId, banker: Option<UserId>, loot: StashId, modifier: real, archived: bool)

  datatype Role = Dm | Player

  /** The composite key of a membership row. */
  datatype Seat = Seat(user: UserId, party: PartyId, role: Role)

  /** A row with a `leftAt` is soft-deleted. */
  datatype Membership = Membership(character: Option<CharId>, joinedAt: Time, leftAt: Option<Time>)

  datatype Character = Character(party: PartyId, owner: UserId, inventory: StashId)

  datatype Scope = CharacterScope | PartyScope | LootScope

  datatype Stash = Stash(scope: Scope, carried: bool, owner: Option<CharId>, party: Option<PartyId>)

  /** The columns of an item row that are only ever copied along. */
  datatype Details = Details(identified: bool, hint: Option<string>, customName: Option<string>, overrides: Option<string>)

  datatype Item = Item(
    definition: DefId, stash: StashId, container: Option<ItemId>, quantity: int,
    equipped: bool, attuned: bool, charges: Option<int>, notes: Option<string>, details: Details)

  datatype Cost = Cost(amount: real, denom: Denom)

  datatype Definition = Definition(source: P.Source, cost: Option<Cost>)

  datatype Shop = Shop(party: PartyId, modifier: real, rate: real)

  /** A quantity of -1 means unlimited. */
  datatype Stock = Stock(shop: ShopId, definition: DefId, override: Option<int>, quantity: int)

  const UNLIMITED := -1

  type Parties = map<PartyId, Party>
  type Seats = map<Seat, Membership>
  type Characters = map<CharId, Character>
  type Stashes = map<StashId, Stash>
  type Holdings = map<StashId, Coins>
  type Items = map<ItemId, Item>
  type Shops = map<ShopId, Shop>
  type Stocks = map<StockId, Stock>
  type Catalog = map<DefId, Definition>

  /** Holdings are keyed by the stash they belong to, which the schema makes unique. */
  datatype DB = DB(
    parties: Parties, seats: Seats, characters: Characters, stashes: Stashes, holdings: Holdings,
    items: Items, shops: Shops, stock: Stocks, catalog: Catalog)

  // ---------------------------------------------------------------- reading the tables

  predicate Active(seats: Seats, seat: Seat) {
    seat in seats && seats[seat].leftAt.None?
  }

  predicate IsMember(seats: Seats, u: UserId, p: PartyId) {
    Active(seats, Seat(u, p, Dm)) || Active(seats, Seat(u, p, Player))
  }

  predicate Open(parties: Parties, p: PartyId) {
    p in parties && !parties[p].archived
  }

  /** The party a stash is counted to: its own, or its character's. */
  function PartyOf(stashes: Stashes, characters: Characters, s: StashId): Option<PartyId> {
    if s !in stashes then None
    else if stashes[s].party.Some? then stashes[s].party
    else if stashes[s].owner.Some? && stashes[s].owner.value in characters
    then Some(characters[stashes[s].owner.value].party)
    else None
  }

  /** The stash belongs to a party that is not archived. */
  predicate Usable(db: DB, s: StashId) {
    var p := PartyOf(db.stashes, db.characters, s);
    p.Some? && Open(db.parties, p.value)
  }

  predicate SameParty(db: DB, s: StashId, t: StashId) {
    PartyOf(db.stashes, db.characters, s) == PartyOf(db.stashes, db.characters, t)
  }

  // ---------------------------------------------------------------- what is kept

  /** One active DM, the owner; the Banker, if any, is an active player and not the owner. */
  ghost predicate Governed(party: Party, p: PartyId, seats: Seats) {
    && Active(seats, Seat(party.owner, p, Dm))
    && (forall u :: Active(seats, Seat(u, p, Dm)) ==> u == party.owner)
    && (party.banker.Some? ==>
          party.banker.value != party.owner && Active(seats, Seat(party.banker.value, p, Player)))
  }

  ghost predicate Deserted(p: PartyId, seats: Seats) {
    forall u, r :: !Active(seats, Seat(u, p, r))
  }

  /** A party is governed until it is archived, and then nobody is active in it. */
  ghost predicate PartiesOk(parties: Parties, seats: Seats) {
    && (forall seat :: seat in seats ==> seat.party in parties)
    && (forall p :: p in parties ==> if parties[p].archived then Deserted(p, seats) else Governed(parties[p], p, seats))
  }

  /** Whoever is an active DM has no soft-deleted player row beside it. */
  ghost predicate SeatsOk(seats: Seats) {
    forall u, p :: Active(seats, Seat(u, p, Dm)) && Seat(u, p, Player) in seats ==> Active(seats, Seat(u, p, Player))
  }

  /** The player row of a character's owner. */
  function SeatOf(c: Character): Seat {
    Seat(c.owner, c.party, Player)
  }

  /** The owner's player row names the character. */
  ghost predicate CharacterLinked(parties: Parties, seats: Seats, c: CharId, character: Character) {
    && character.party in parties && SeatOf(character) in seats && seats[SeatOf(character)].character == Some(c)
  }

  /** A character named by a row exists and is owned through that row, which is active unless the party is archived. */
  ghost predicate RowLinked(parties: Parties, characters: Characters, seat: Seat, row: Membership) {
    row.character.Some? ==>
      && row.character.value in characters && seat == SeatOf(characters[row.character.value])
      && (seat.party in parties && !parties[seat.party].archived ==> row.leftAt.None?)
  }

  /**
   * Characters and the rows naming them correspond one to one; outside archived parties those rows
   * are exactly active player rows.
   */
  ghost predicate LinksOk(parties: Parties, seats: Seats, characters: Characters) {
    && (forall c :: c in characters ==> CharacterLinked(parties, seats, c, characters[c]))
    && (forall seat :: seat in seats ==> RowLinked(parties, characters, seat, seats[seat]))
  }

  /** Every character has its Inventory, every party its Recovered Loot, and no other stash passes for one. */
  ghost predicate StashesOk(parties: Parties, characters: Characters, stashes: Stashes) {
    && (forall c :: c in characters ==>
          && characters[c].inventory in stashes
          && stashes[characters[c].inventory] == Stash(CharacterScope, true, Some(c), None))
    && (forall p :: p in parties ==>
          && parties[p].loot in stashes
          && stashes[parties[p].loot] == Stash(LootScope, false, None, Some(p)))
    && (forall s :: s in stashes ==> StashOk(parties, characters, s, stashes[s]))
  }

  ghost predicate StashOk(parties: Parties, characters: Characters, s: StashId, stash: Stash) {
    if stash.scope == CharacterScope then
      && stash.owner.Some? && stash.owner.value in characters && stash.party.None?
      && (stash.carried ==> characters[stash.owner.value].inventory == s)
    else
      && stash.owner.None? && stash.party.Some? && stash.party.value in parties && !stash.carried
      && (stash.scope == LootScope ==> parties[stash.party.value].loot == s)
  }

  /** Every stash has exactly one holding, and no coin count is negative. */
  ghost predicate HoldingsOk(stashes: Stashes, holdings: Holdings) {
    && holdings.Keys == stashes.Keys
    && (forall s :: s in holdings ==> holdings[s].NonNegative())
  }

  predicate ItemOk(stashes: Stashes, catalog: Catalog, item: Item) {
    && item.quantity >= 1
    && (item.charges.Some? ==> item.charges.value >= 0)
    && item.definition in catalog
    && item.stash in stashes
    && (item.equipped || item.attuned ==> stashes[item.stash].carried)
  }

  /** Rows are non-empty, refer to a definition and a stash, and carry flags in Inventories only. */
  ghost predicate ItemsOk(stashes: Stashes, catalog: Catalog, items: Items) {
    forall i :: i in items ==> ItemOk(stashes, catalog, items[i])
  }

  predicate StockOk(shops: Shops, row: Stock) {
    row.shop in shops && row.quantity >= UNLIMITED && (row.override.Some? ==> row.override.value >= 0)
  }

  ghost predicate ShopsOk(parties: Parties, shops: Shops, stock: Stocks) {
    && (forall h :: h in shops ==> shops[h].party in parties && shops[h].modifier > 0.0 && shops[h].rate > 0.0)
    && (forall k :: k in stock ==> StockOk(shops, stock[k]))
    && (forall p :: p in parties ==> parties[p].modifier > 0.0)
  }

  ghost predicate CatalogOk(catalog: Catalog) {
    forall d :: d in catalog && catalog[d].cost.Some? ==> catalog[d].cost.value.amount >= 0.0
  }

  ghost predicate Valid(db: DB) {
    && PartiesOk(db.parties, db.seats)
    && SeatsOk(db.seats)
    && LinksOk(db.parties, db.seats, db.characters)
    && StashesOk(db.parties, db.characters, db.stashes)
    && HoldingsOk(db.stashes, db.holdings)
    && ItemsOk(db.stashes, db.catalog, db.items)
    && ShopsOk(db.parties, db.shops, db.stock)
    && CatalogOk(db.catalog)
  }

  /** Before the first party there is only the seeded catalogue. */
  function Fresh(catalog: Catalog): DB {
    DB(map[], map[], map[], map[], map[], map[], map[], map[], catalog)
  }

  // ---------------------------------------------------------------- what is counted

  ghost function Quantity(stashes: Stashes, characters: Characters, p: PartyId, d: DefId): (ItemId, Item) -> int {
    (i: ItemId, item: Item) =>
      if item.definition == d && PartyOf(stashes, characters, item.stash) == Some(p) then item.quantity else 0
  }

  ghost function CoinsHeld(stashes: Stashes, characters: Characters, p: PartyId, d: Denom): (StashId, Coins) -> int {
    (s: StashId, c: Coins) => if PartyOf(stashes, characters, s) == Some(p) then c.Get(d) else 0
  }
}
