/** What the membership, character and stash actions leave in the tables, row by row, told without their steps. */
module MemberEffects {
  import opened Currency
  import opened Ledger
  import opened Members
  import opened MembersSafe
  import opened Tables
  import opened Wrappers

  // ---------------------------------------------------------------- offices

  /** `u` alone is a member of the party, so leaving it archives it. */
  ghost predicate LastMember(db: DB, u: UserId, p: PartyId) {
    forall v :: IsMember(db.seats, v, p) ==> v == u
  }

  ghost predicate Archives(db: DB, a: PartyAction) {
    a.LeaveParty? && LastMember(db, a.u, a.p)
  }

  function OwnerAfter(db: DB, a: PartyAction, p: PartyId): UserId
    requires p in db.parties
  {
    if a.DmTransfer? && a.p == p then a.incoming else db.parties[p].owner
  }

  function BankerAfter(db: DB, a: PartyAction, p: PartyId): Option<UserId>
    requires p in db.parties
  {
    var banker := db.parties[p].banker;
    if a.p != p then banker
    else match a
      case AppointBanker(_, u) => Some(u)
      case RevokeBanker(_) => None
      case DmTransfer(_, _, incoming, _) => if banker == Some(incoming) then None else banker
      case LeaveParty(u, _, _) => if banker == Some(u) then None else banker
      case KickPlayer(_, u, _, _) => if banker == Some(u) then None else banker
      case _ => banker
  }

  ghost predicate OfficesAfter(db: DB, a: PartyAction, after: Parties, p: PartyId) {
    && (p in after <==> p in db.parties || (a.Bootstrap? && p == a.p))
    && (a.Bootstrap? && p == a.p ==> after[p] == Party(a.u, None, a.loot, 1.0, false))
    && (p in db.parties ==> (
          var archived := db.parties[p].archived || (Archives(db, a) && p == a.p);
          after[p] == Party(OwnerAfter(db, a, p), BankerAfter(db, a, p), db.parties[p].loot, db.parties[p].modifier, archived)))
  }

  lemma LastIsSole(db: DB, u: UserId, p: PartyId)
    requires Valid(db) && Open(db.parties, p)
    ensures LastMember(db, u, p) <==> Sole(db.seats, u, p)
    ensures LastMember(db, u, p) ==> u == db.parties[p].owner && db.parties[p].banker != Some(u)
  {
    assert Governed(db.parties[p], p, db.seats);
    assert IsMember(db.seats, db.parties[p].owner, p);
  }

  lemma LeaveOffices(db: DB, u: UserId, q: PartyId, now: Time, p: PartyId)
    requires Valid(db) && CanLeave(db, u, q)
    ensures var a := PartyAction.LeaveParty(u, q, now); OfficesAfter(db, a, ApplyParty(db, a).parties, p)
  {
    LastIsSole(db, u, q);
  }

  lemma KickOffices(db: DB, actor: UserId, u: UserId, q: PartyId, now: Time, p: PartyId)
    requires Valid(db) && actor != u && CanDepart(db, u, q)
    ensures var a := PartyAction.KickPlayer(actor, u, q, now); OfficesAfter(db, a, ApplyParty(db, a).parties, p)
  {
  }

  lemma FoundOffices(db: DB, a: PartyAction, p: PartyId)
    requires Valid(db) && LegalOnParty(db, a) && a.Bootstrap?
    ensures OfficesAfter(db, a, ApplyParty(db, a).parties, p)
  {
    FoundTables(db, a.u, a.p, a.pool, a.loot, a.character, a.now);
  }

  /**
   * The owner changes by a hand-over alone; the Banker is whom an appointment names, and nobody once
   * revoked, gone or made DM; the last member to leave archives the party; nothing else about a party changes.
   */
  lemma PartyActionOffices(db: DB, a: PartyAction, p: PartyId)
    requires Valid(db) && LegalOnParty(db, a)
    ensures OfficesAfter(db, a, ApplyParty(db, a).parties, p)
  {
    match a
    case Bootstrap(_, _, _, _, _, _) => FoundOffices(db, a, p);
    case LeaveParty(u, q, now) => LeaveOffices(db, u, q, now, p);
    case KickPlayer(actor, u, q, now) => KickOffices(db, actor, u, q, now, p);
    case _ =>
  }

  // ---------------------------------------------------------------- membership rows

  function When(a: PartyAction): Time {
    match a
    case Bootstrap(_, _, _, _, _, now) => now
    case JoinParty(_, _, now) => now
    case LeaveParty(_, _, now) => now
    case KickPlayer(_, _, _, now) => now
    case DmTransfer(_, _, _, now) => now
    case _ => 0
  }

  /** The character a row that becomes active starts with: only who founds a party may bring one. */
  function StartsWith(a: PartyAction, seat: Seat): Option<CharId> {
    if a.Bootstrap? && a.character.Some? && seat.role == Player then Some(a.character.value.id) else None
  }

  /**
   * A row that becomes active joined at the action's time, anew; one that is no longer active left at
   * that time, and has lost its character unless the party is archived; every other row stays as it is.
   */
  ghost predicate RowAfter(db: DB, a: PartyAction, after: Seats, seat: Seat) {
    var before := db.seats;
    && (seat in after <==> seat in before || Active(after, seat))
    && (Active(after, seat) && !Active(before, seat) ==> after[seat] == Membership(StartsWith(a, seat), When(a), None))
    && (Active(before, seat) && !Active(after, seat) ==>
          after[seat] == Membership(if Archives(db, a) then before[seat].character else None, before[seat].joinedAt, Some(When(a))))
    && (seat in before && (Active(before, seat) <==> Active(after, seat)) ==> after[seat] == before[seat])
  }

  lemma PartyActionRows(db: DB, a: PartyAction, seat: Seat)
    requires Valid(db) && LegalOnParty(db, a)
    ensures RowAfter(db, a, ApplyParty(db, a).seats, seat)
  {
    match a
    case Bootstrap(_, _, _, _, _, _) => FoundRow(db, a, seat);
    case JoinParty(u, p, now) =>
    case LeaveParty(u, p, now) => LeaveRow(db, u, p, now, seat);
    case KickPlayer(actor, u, p, now) => KickRow(db, actor, u, p, now, seat);
    case DmTransfer(p, outgoing, incoming, now) => HandOverRow(db, p, outgoing, incoming, now, seat);
    case _ => SameRow(db, a, seat);
  }

  lemma SameRow(db: DB, a: PartyAction, seat: Seat)
    ensures RowAfter(db, a, db.seats, seat)
  {
  }

  /** The rows a new party comes with. */
  function FoundingRows(seats: Seats, u: UserId, p: PartyId, character: Option<NewCharacter>, now: Time): Seats {
    var led := seats[Seat(u, p, Dm) := Membership(None, now, None)];
    if character.Some? then led[Seat(u, p, Player) := Membership(Some(character.value.id), now, None)] else led
  }

  lemma FoundTables(db: DB, u: UserId, p: PartyId, pool: StashId, loot: StashId, character: Option<NewCharacter>, now: Time)
    requires Seat(u, p, Player) !in db.seats
    ensures var r := Found(db, u, p, pool, loot, character, now);
      && r.parties == db.parties[p := Party(u, None, loot, 1.0, false)]
      && r.seats == FoundingRows(db.seats, u, p, character, now)
  {
  }

  lemma FoundingRow(seats: Seats, a: PartyAction, seat: Seat)
    requires a.Bootstrap? && forall role :: Seat(a.u, a.p, role) !in seats
    ensures var after := FoundingRows(seats, a.u, a.p, a.character, a.now);
      && (seat in after <==> seat in seats || Active(after, seat))
      && (Active(after, seat) && !Active(seats, seat) ==> after[seat] == Membership(StartsWith(a, seat), a.now, None))
      && (Active(seats, seat) ==> Active(after, seat))
      && (seat in seats ==> after[seat] == seats[seat])
  {
    assert Seat(a.u, a.p, Player) !in seats && Seat(a.u, a.p, Dm) !in seats;
  }

  lemma FoundRow(db: DB, a: PartyAction, seat: Seat)
    requires Valid(db) && a.Bootstrap? && LegalOnParty(db, a)
    ensures RowAfter(db, a, ApplyParty(db, a).seats, seat)
  {
    FoundTables(db, a.u, a.p, a.pool, a.loot, a.character, a.now);
    FoundingRow(db.seats, a, seat);
  }

  lemma LeaveRow(db: DB, u: UserId, p: PartyId, now: Time, seat: Seat)
    requires Valid(db) && CanLeave(db, u, p)
    ensures var a := PartyAction.LeaveParty(u, p, now); RowAfter(db, a, ApplyParty(db, a).seats, seat)
  {
    LastIsSole(db, u, p);
    if !Sole(db.seats, u, p) {
      DepartRow(db, u, p, now, seat);
    }
  }

  lemma KickRow(db: DB, actor: UserId, u: UserId, p: PartyId, now: Time, seat: Seat)
    requires Valid(db) && actor != u && CanDepart(db, u, p)
    ensures var a := PartyAction.KickPlayer(actor, u, p, now); RowAfter(db, a, ApplyParty(db, a).seats, seat)
  {
    DepartRow(db, u, p, now, seat);
  }

  lemma HandOverRow(db: DB, p: PartyId, outgoing: UserId, incoming: UserId, now: Time, seat: Seat)
    requires Valid(db) && CanTransferDm(db, p, outgoing, incoming)
    ensures RowAfter(db, PartyAction.DmTransfer(p, outgoing, incoming, now), TransferDmSeats(db.seats, p, outgoing, incoming, now), seat)
  {
    assert Governed(db.parties[p], p, db.seats);
    var out := Seat(outgoing, p, Dm);
    assert RowLinked(db.parties, db.characters, out, db.seats[out]);
    assert db.seats[out].character.None?;
  }

  lemma DepartRow(db: DB, u: UserId, p: PartyId, now: Time, seat: Seat)
    requires Valid(db) && CanDepart(db, u, p)
    ensures var after := Depart(db, u, p, now).seats;
      && after.Keys == db.seats.Keys
      && (seat in db.seats ==> (
            var gone := seat.user == u && seat.party == p && Active(db.seats, seat);
            after[seat] == if gone then Membership(None, db.seats[seat].joinedAt, Some(now)) else db.seats[seat]))
  {
    LinkedDeletable(db, u, p);
    if seat in db.seats {
      assert RowLinked(db.parties, db.characters, seat, db.seats[seat]);
    }
  }

  // ---------------------------------------------------------------- characters and stashes

  lemma CharacterByOwner(db: DB, u: UserId, p: PartyId, c: CharId)
    requires Valid(db) && CanDepart(db, u, p) && c in db.characters
    ensures CharacterOf(db.seats, u, p) == Some(c) <==> db.characters[c].owner == u && db.characters[c].party == p
  {
    assert CharacterLinked(db.parties, db.seats, c, db.characters[c]);
    var mine := Seat(u, p, Player);
    if Active(db.seats, mine) {
      assert RowLinked(db.parties, db.characters, mine, db.seats[mine]);
    }
    assert RowLinked(db.parties, db.characters, SeatOf(db.characters[c]), db.seats[SeatOf(db.characters[c])]);
  }

  /** The stash belongs to the character. */
  predicate Owns(stashes: Stashes, c: CharId, s: StashId) {
    s in stashes && stashes[s].owner == Some(c)
  }

  lemma DeletedTables(db: DB, c: CharId, d: CharId, s: StashId)
    requires Valid(db) && CanDeleteCharacter(db, c)
    ensures var r := DeleteCharacter(db, c);
      && (d in r.characters <==> d in db.characters && d != c) && (d in r.characters ==> r.characters[d] == db.characters[d])
      && (s in r.stashes <==> s in db.stashes && !Owns(db.stashes, c, s)) && (s in r.stashes ==> r.stashes[s] == db.stashes[s])
  {
    if s in db.stashes {
      assert StashOk(db.parties, db.characters, s, db.stashes[s]);
    }
  }

  /** Dropping a character takes its stashes along and clears its name from its row; nothing else goes. */
  lemma CharacterDropped(db: DB, c: CharId, d: CharId, s: StashId, seat: Seat)
    requires Valid(db) && CanDeleteCharacter(db, c)
    ensures var r := ApplyStashes(db, DropCharacter(c));
      && (d in r.characters <==> d in db.characters && d != c) && (d in r.characters ==> r.characters[d] == db.characters[d])
      && (s in r.stashes <==> s in db.stashes && !Owns(db.stashes, c, s)) && (s in r.stashes ==> r.stashes[s] == db.stashes[s])
      && (seat in r.seats <==> seat in db.seats)
      && (seat in db.seats ==> (
            var row := db.seats[seat];
            r.seats[seat] == Membership(if row.character == Some(c) then None else row.character, row.joinedAt, row.leftAt)))
  {
    DeletedTables(db, c, d, s);
    DeletedRow(db, c, seat);
  }

  lemma DeletedRow(db: DB, c: CharId, seat: Seat)
    requires Valid(db) && CanDeleteCharacter(db, c)
    ensures var r := DeleteCharacter(db, c);
      && (seat in r.seats <==> seat in db.seats)
      && (seat in db.seats ==> (
            var row := db.seats[seat];
            r.seats[seat] == Membership(if row.character == Some(c) then None else row.character, row.joinedAt, row.leftAt)))
  {
    if seat in db.seats {
      assert RowLinked(db.parties, db.characters, seat, db.seats[seat]);
    }
  }

  /** Whoever leaves or is kicked takes their character along, and nobody else's. */
  lemma DepartCharacters(db: DB, u: UserId, p: PartyId, now: Time, c: CharId)
    requires Valid(db) && CanDepart(db, u, p)
    ensures var r := Depart(db, u, p, now);
      && (c in r.characters <==> c in db.characters && !(db.characters[c].owner == u && db.characters[c].party == p))
      && (c in r.characters ==> r.characters[c] == db.characters[c])
  {
    LinkedDeletable(db, u, p);
    if c in db.characters {
      CharacterByOwner(db, u, p, c);
    }
  }

  /** And its stashes. */
  lemma DepartStashes(db: DB, u: UserId, p: PartyId, now: Time, s: StashId)
    requires Valid(db) && CanDepart(db, u, p)
    ensures var r := Depart(db, u, p, now);
      && (s in r.stashes ==> s in db.stashes && r.stashes[s] == db.stashes[s])
      && (s in db.stashes ==> (
            var owner := db.stashes[s].owner;
            s in r.stashes <==> !(owner.Some? && db.characters[owner.value].owner == u && db.characters[owner.value].party == p)))
  {
    LinkedDeletable(db, u, p);
    if s in db.stashes {
      assert StashOk(db.parties, db.characters, s, db.stashes[s]);
      if db.stashes[s].owner.Some? {
        CharacterByOwner(db, u, p, db.stashes[s].owner.value);
      }
    }
    var gone := CharacterOf(db.seats, u, p);
    if gone.Some? {
      DeletedTables(db, gone.value, gone.value, s);
    }
  }

  /** The row is new, and its stash has an empty holding. */
  predicate NewStash(before: DB, after: DB, s: StashId, stash: Stash) {
    s !in before.stashes && s in after.stashes && after.stashes[s] == stash && s in after.holdings && after.holdings[s] == NO_COINS
  }

  predicate SameStash(before: DB, after: DB, s: StashId) {
    && (s in after.stashes <==> s in before.stashes) && (s in after.stashes ==> after.stashes[s] == before.stashes[s])
    && (s in after.holdings <==> s in before.holdings) && (s in after.holdings ==> after.holdings[s] == before.holdings[s])
  }

  /** A new party has a shared pool and a Recovered Loot, and its founder's character, if any, an Inventory; all are empty. */
  lemma FoundedStashes(db: DB, u: UserId, p: PartyId, pool: StashId, loot: StashId, character: Option<NewCharacter>, now: Time, s: StashId)
    requires Valid(db) && CanFound(db, p, pool, loot, character)
    ensures var r := Found(db, u, p, pool, loot, character, now);
      && NewStash(db, r, pool, Stash(PartyScope, false, None, Some(p)))
      && NewStash(db, r, loot, Stash(LootScope, false, None, Some(p)))
      && (character.Some? ==> (
            var c := character.value;
            && NewStash(db, r, c.inventory, Stash(CharacterScope, true, Some(c.id), None))
            && r.characters == db.characters[c.id := Character(p, u, c.inventory)]))
      && (character.None? ==> r.characters == db.characters)
      && (s != pool && s != loot && !(character.Some? && s == character.value.inventory) ==> SameStash(db, r, s))
  {
  }

  /** A new character has an empty Inventory, and is named by its owner's player row, which it joins or which is new. */
  lemma CharacterCreated(db: DB, u: UserId, p: PartyId, c: CharId, inventory: StashId, now: Time, s: StashId, seat: Seat)
    requires Valid(db) && CanAddCharacter(db, u, p, c, inventory)
    ensures var r := ApplyStashes(db, StashAction.CreateCharacter(u, p, c, inventory, now));
            var mine := Seat(u, p, Player);
      && r.characters == db.characters[c := Character(p, u, inventory)]
      && NewStash(db, r, inventory, Stash(CharacterScope, true, Some(c), None))
      && (s != inventory ==> SameStash(db, r, s))
      && mine in r.seats
      && r.seats[mine] == Membership(Some(c), if mine in db.seats then db.seats[mine].joinedAt else now, None)
      && (seat != mine ==> (seat in r.seats <==> seat in db.seats) && (seat in r.seats ==> r.seats[seat] == db.seats[seat]))
  {
    AddCharacterActive(db, u, p, c, inventory, now);
  }

  /** A new stash is a loose one of the character's, and empty. */
  lemma StashCreated(db: DB, c: CharId, s: StashId, t: StashId)
    requires Valid(db) && CanCreateStash(db, c, s)
    ensures var r := ApplyStashes(db, StashAction.NewStash(c, s));
      && NewStash(db, r, s, Stash(CharacterScope, false, Some(c), None))
      && (t != s ==> SameStash(db, r, t)) && r.characters == db.characters
  {
  }
}
