/**
 * Membership, characters and stashes (apps/server/src/sync/persistor.ts, apps/server/src/parties/leave.ts):
 * what each action requires of the tables (the guard map and the reducer check it first), what it
 * writes, and that it keeps the tables sound.
 */
module Members {
  import opened Currency
  import opened Tables
  import opened Wrappers
  import C = CoinRows
  import I = ItemRows

  // ---------------------------------------------------------------- membership rows

  function Row(character: Option<CharId>, now: Time): Membership {
    Membership(character, now, None)
  }

  predicate CanJoin(db: DB, u: UserId, p: PartyId) {
    Open(db.parties, p) && !Active(db.seats, Seat(u, p, Player))
  }

  /** Reactivates a soft-deleted row or creates one. */
  function Join(db: DB, u: UserId, p: PartyId, now: Time): DB {
    db.(seats := db.seats[Seat(u, p, Player) := Row(None, now)])
  }

  predicate CanAppoint(db: DB, p: PartyId, u: UserId) {
    && Open(db.parties, p) && db.parties[p].banker.None?
    && u != db.parties[p].owner && Active(db.seats, Seat(u, p, Player))
  }

  function SetBanker(db: DB, p: PartyId, banker: Option<UserId>): DB
    requires p in db.parties
  {
    db.(parties := db.parties[p := db.parties[p].(banker := banker)])
  }

  predicate CanTransferDm(db: DB, p: PartyId, outgoing: UserId, incoming: UserId) {
    && Open(db.parties, p) && outgoing != incoming
    && Active(db.seats, Seat(outgoing, p, Dm)) && Active(db.seats, Seat(incoming, p, Player))
  }

  function TransferDmSeats(seats: Seats, p: PartyId, outgoing: UserId, incoming: UserId, now: Time): Seats
    requires Seat(outgoing, p, Dm) in seats
  {
    var out := seats[Seat(outgoing, p, Dm) := seats[Seat(outgoing, p, Dm)].(leftAt := Some(now))];
    var seated := out[Seat(incoming, p, Dm) := Row(None, now)];
    if Active(seated, Seat(outgoing, p, Player)) then seated else seated[Seat(outgoing, p, Player) := Row(None, now)]
  }

  function TransferDm(db: DB, p: PartyId, outgoing: UserId, incoming: UserId, now: Time): DB
    requires p in db.parties && Seat(outgoing, p, Dm) in db.seats
  {
    var party := db.parties[p];
    db.(seats := TransferDmSeats(db.seats, p, outgoing, incoming, now),
        parties := db.parties[p := party.(owner := incoming, banker := if party.banker == Some(incoming) then None else party.banker)])
  }

  function SoftDelete(seats: Seats, u: UserId, p: PartyId, now: Time): Seats {
    map seat | seat in seats ::
      if seat.user == u && seat.party == p && seats[seat].leftAt.None? then seats[seat].(leftAt := Some(now)) else seats[seat]
  }

  // ---------------------------------------------------------------- stashes

  predicate CanCreateStash(db: DB, c: CharId, s: StashId) {
    c in db.characters && Open(db.parties, db.characters[c].party) && s !in db.stashes
  }

  function CreateStash(db: DB, c: CharId, s: StashId): DB {
    db.(stashes := db.stashes[s := Stash(CharacterScope, false, Some(c), None)],
        holdings := db.holdings[s := NO_COINS])
  }

  /** Moves everything in the given stashes to another and drops them. */
  ghost function SweepStashes(db: DB, from: set<StashId>, to: StashId): DB
    requires to in db.holdings && to !in from
  {
    db.(items := I.Sweep(db.items, from, to), holdings := C.Sweep(db.holdings, from, to), stashes := db.stashes - from)
  }

  predicate CanDeleteStash(db: DB, s: StashId) {
    && s in db.stashes && db.stashes[s].scope == CharacterScope && !db.stashes[s].carried
    && Usable(db, s)
  }

  /** The Recovered Loot of the party a stash is counted to. */
  function LootOf(db: DB, s: StashId): StashId
    requires Usable(db, s)
  {
    db.parties[PartyOf(db.stashes, db.characters, s).value].loot
  }

  ghost function DeleteStash(db: DB, s: StashId): DB
    requires Valid(db) && CanDeleteStash(db, s)
  {
    SweepStashes(db, {s}, LootOf(db, s))
  }

  // ---------------------------------------------------------------- characters

  predicate CanAddCharacter(db: DB, u: UserId, p: PartyId, c: CharId, inventory: StashId) {
    && Open(db.parties, p) && IsMember(db.seats, u, p)
    && !(Active(db.seats, Seat(u, p, Player)) && db.seats[Seat(u, p, Player)].character.Some?)
    && c !in db.characters && inventory !in db.stashes
  }

  /** Links the active player row to the character, or creates a player row. */
  function LinkSeat(seats: Seats, seat: Seat, c: CharId, now: Time): Seats {
    seats[seat := if Active(seats, seat) then seats[seat].(character := Some(c)) else Row(Some(c), now)]
  }

  function AddCharacter(db: DB, u: UserId, p: PartyId, c: CharId, inventory: StashId, now: Time): DB {
    db.(characters := db.characters[c := Character(p, u, inventory)],
        stashes := db.stashes[inventory := Stash(CharacterScope, true, Some(c), None)],
        holdings := db.holdings[inventory := NO_COINS],
        seats := LinkSeat(db.seats, Seat(u, p, Player), c, now))
  }

  predicate CanDeleteCharacter(db: DB, c: CharId) {
    c in db.characters && Open(db.parties, db.characters[c].party)
  }

  function OwnedBy(stashes: Stashes, c: CharId): set<StashId> {
    set s | s in stashes && stashes[s].scope == CharacterScope && stashes[s].owner == Some(c)
  }

  function Unlink(seats: Seats, c: CharId): Seats {
    map seat | seat in seats ::
      if seat.role == Player && seats[seat].character == Some(c) then seats[seat].(character := None) else seats[seat]
  }

  /** The character's stashes are swept into Recovered Loot, its row unlinked, the character dropped. */
  ghost function DeleteCharacter(db: DB, c: CharId): DB
    requires Valid(db) && CanDeleteCharacter(db, c)
  {
    SweepStashes(db, OwnedBy(db.stashes, c), db.parties[db.characters[c].party].loot)
      .(seats := Unlink(db.seats, c), characters := db.characters - {c})
  }

  // ---------------------------------------------------------------- founding and leaving parties

  datatype NewCharacter = NewCharacter(id: CharId, inventory: StashId)

  predicate CanFound(db: DB, p: PartyId, pool: StashId, loot: StashId, character: Option<NewCharacter>) {
    && p !in db.parties && pool !in db.stashes && loot !in db.stashes && pool != loot
    && (character.Some? ==>
          && character.value.id !in db.characters && character.value.inventory !in db.stashes
          && character.value.inventory != pool && character.value.inventory != loot)
  }

  /** A party founded by its DM, who may start with a character. */
  function Found(db: DB, u: UserId, p: PartyId, pool: StashId, loot: StashId, character: Option<NewCharacter>, now: Time): DB {
    var shell := db.(
      parties := db.parties[p := Party(u, None, loot, 1.0, false)],
      seats := db.seats[Seat(u, p, Dm) := Row(None, now)],
      stashes := db.stashes[pool := Stash(PartyScope, false, None, Some(p))][loot := Stash(LootScope, false, None, Some(p))],
      holdings := db.holdings[pool := NO_COINS][loot := NO_COINS]);
    if character.Some? then AddCharacter(shell, u, p, character.value.id, character.value.inventory, now) else shell
  }

  /** The character an active player row links to, if any. */
  function CharacterOf(seats: Seats, u: UserId, p: PartyId): Option<CharId> {
    if Active(seats, Seat(u, p, Player)) then seats[Seat(u, p, Player)].character else None
  }

  /** Nobody but `u` is active in the party. */
  ghost predicate Sole(seats: Seats, u: UserId, p: PartyId) {
    IsMember(seats, u, p) && forall v :: IsMember(seats, v, p) ==> v == u
  }

  /** Any member but the party's DM may leave or be kicked. */
  predicate CanDepart(db: DB, u: UserId, p: PartyId) {
    Open(db.parties, p) && IsMember(db.seats, u, p) && !Active(db.seats, Seat(u, p, Dm))
  }

  ghost function WithoutCharacterOf(db: DB, u: UserId, p: PartyId): (r: DB)
    requires Valid(db)
    ensures r.parties == db.parties
  {
    var c := CharacterOf(db.seats, u, p);
    if c.Some? && CanDeleteCharacter(db, c.value) then DeleteCharacter(db, c.value) else db
  }

  function WithoutBanker(parties: Parties, u: UserId, p: PartyId): Parties
    requires p in parties
  {
    if parties[p].banker == Some(u) then parties[p := parties[p].(banker := None)] else parties
  }

  /** Leaving or being kicked: the character goes, the rows are soft-deleted, a Banker loses the office. */
  ghost function Depart(db: DB, u: UserId, p: PartyId, now: Time): DB
    requires Valid(db) && CanDepart(db, u, p)
  {
    var left := WithoutCharacterOf(db, u, p);
    left.(seats := SoftDelete(left.seats, u, p, now),
          parties := WithoutBanker(left.parties, u, p))
  }

  /** The last member leaves: the rows are soft-deleted and the party is archived as it is. */
  function Archive(db: DB, u: UserId, p: PartyId, now: Time): DB
    requires p in db.parties
  {
    db.(seats := SoftDelete(db.seats, u, p, now), parties := db.parties[p := db.parties[p].(archived := true)])
  }
}
