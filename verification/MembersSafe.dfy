/** Every membership, character and stash action keeps the tables sound. */
module MembersSafe {
  import opened Members
  import opened Tables
  import opened Wrappers
  import C = CoinRows

  // ---------------------------------------------------------------- membership rows

  /** Rows that change nothing but their character or dates keep who is active. */
  ghost predicate SameActivity(a: Seats, b: Seats) {
    a.Keys == b.Keys && forall seat :: seat in a ==> a[seat].leftAt == b[seat].leftAt
  }

  lemma SameActivityKeeps(parties: Parties, a: Seats, b: Seats)
    requires SameActivity(a, b) && PartiesOk(parties, a) && SeatsOk(a)
    ensures PartiesOk(parties, b) && SeatsOk(b)
  {
    assert forall seat: Seat :: Active(a, seat) <==> Active(b, seat);
  }

  lemma JoinSafe(db: DB, u: UserId, p: PartyId, now: Time)
    requires Valid(db) && CanJoin(db, u, p)
    ensures Valid(Join(db, u, p, now))
  {
    var seats := Join(db, u, p, now).seats;
    assert forall seat: Seat :: seat != Seat(u, p, Player) ==> (Active(seats, seat) <==> Active(db.seats, seat));
    assert db.seats.Keys <= seats.Keys;
  }

  lemma BankerSafe(db: DB, p: PartyId, banker: Option<UserId>)
    requires Valid(db) && Open(db.parties, p)
    requires banker.Some? ==> CanAppoint(db, p, banker.value)
    ensures Valid(SetBanker(db, p, banker))
  {
  }

  /** Who is active after the hand-over: the outgoing DM as a player, the incoming one as the DM. */
  lemma TransferDmActive(seats: Seats, p: PartyId, outgoing: UserId, incoming: UserId, now: Time)
    requires Seat(outgoing, p, Dm) in seats && outgoing != incoming
    ensures var r := TransferDmSeats(seats, p, outgoing, incoming, now);
      forall seat: Seat :: Active(r, seat)
        <==> seat != Seat(outgoing, p, Dm)
             && (seat == Seat(incoming, p, Dm) || seat == Seat(outgoing, p, Player) || Active(seats, seat))
  {
  }

  /**
   * The incoming DM's party is governed, and the outgoing DM's player row was active or absent, so
   * the branch that reactivates a soft-deleted one is never taken.
   */
  lemma TransferDmGoverned(db: DB, p: PartyId, outgoing: UserId, incoming: UserId, now: Time)
    requires Valid(db) && CanTransferDm(db, p, outgoing, incoming)
    ensures var r := TransferDm(db, p, outgoing, incoming, now);
      PartiesOk(r.parties, r.seats) && SeatsOk(r.seats)
    ensures Seat(outgoing, p, Player) in db.seats ==> Active(db.seats, Seat(outgoing, p, Player))
  {
    TransferDmParties(db, p, outgoing, incoming, now);
    TransferDmRows(db.seats, p, outgoing, incoming, now);
  }

  lemma TransferDmRows(seats: Seats, p: PartyId, outgoing: UserId, incoming: UserId, now: Time)
    requires SeatsOk(seats) && outgoing != incoming
    requires Active(seats, Seat(outgoing, p, Dm)) && Active(seats, Seat(incoming, p, Player))
    ensures SeatsOk(TransferDmSeats(seats, p, outgoing, incoming, now))
    ensures Seat(outgoing, p, Player) in seats ==> Active(seats, Seat(outgoing, p, Player))
  {
    TransferDmActive(seats, p, outgoing, incoming, now);
  }

  lemma TransferDmParties(db: DB, p: PartyId, outgoing: UserId, incoming: UserId, now: Time)
    requires PartiesOk(db.parties, db.seats) && CanTransferDm(db, p, outgoing, incoming)
    ensures var r := TransferDm(db, p, outgoing, incoming, now); PartiesOk(r.parties, r.seats)
  {
    var r := TransferDm(db, p, outgoing, incoming, now);
    TransferDmActive(db.seats, p, outgoing, incoming, now);
    assert Governed(db.parties[p], p, db.seats);
    assert Governed(r.parties[p], p, r.seats);
    forall q | q in r.parties && q != p
      ensures if r.parties[q].archived then Deserted(q, r.seats) else Governed(r.parties[q], q, r.seats)
    {
      assert r.parties[q] == db.parties[q];
    }
  }

  lemma TransferDmLinks(db: DB, p: PartyId, outgoing: UserId, incoming: UserId, now: Time)
    requires Valid(db) && CanTransferDm(db, p, outgoing, incoming)
    ensures var r := TransferDm(db, p, outgoing, incoming, now);
      LinksOk(r.parties, r.seats, r.characters)
  {
    var r := TransferDm(db, p, outgoing, incoming, now);
    TransferDmActive(db.seats, p, outgoing, incoming, now);
    forall seat: Seat | seat in r.seats ensures RowLinked(r.parties, r.characters, seat, r.seats[seat]) {
      if r.seats[seat].character.Some? {
        assert RowLinked(db.parties, db.characters, seat, db.seats[seat]);
      }
    }
    forall c | c in r.characters ensures CharacterLinked(r.parties, r.seats, c, r.characters[c]) {
      assert CharacterLinked(db.parties, db.seats, c, db.characters[c]);
    }
  }

  lemma TransferDmSafe(db: DB, p: PartyId, outgoing: UserId, incoming: UserId, now: Time)
    requires Valid(db) && CanTransferDm(db, p, outgoing, incoming)
    ensures Valid(TransferDm(db, p, outgoing, incoming, now))
  {
    TransferDmGoverned(db, p, outgoing, incoming, now);
    TransferDmLinks(db, p, outgoing, incoming, now);
    PartiesUnderStashes(db, TransferDm(db, p, outgoing, incoming, now));
  }

  /** Changing only who runs a party leaves its stashes and shops sound. */
  lemma PartiesUnderStashes(db: DB, r: DB)
    requires Valid(db) && r.parties.Keys == db.parties.Keys
    requires forall p :: p in db.parties ==> r.parties[p].loot == db.parties[p].loot && r.parties[p].modifier == db.parties[p].modifier
    requires r.characters == db.characters && r.stashes == db.stashes && r.shops == db.shops && r.stock == db.stock
    ensures StashesOk(r.parties, r.characters, r.stashes) && ShopsOk(r.parties, r.shops, r.stock)
  {
    forall s | s in r.stashes ensures StashOk(r.parties, r.characters, s, r.stashes[s]) {
      assert StashOk(db.parties, db.characters, s, db.stashes[s]);
      if r.stashes[s].party.Some? {
        var q := r.stashes[s].party.value;
        assert q in db.parties ==> r.parties[q].loot == db.parties[q].loot;
      }
    }
  }

  lemma SoftDeleteActive(seats: Seats, u: UserId, p: PartyId, now: Time)
    ensures var r := SoftDelete(seats, u, p, now);
      && r.Keys == seats.Keys
      && forall seat: Seat :: Active(r, seat) <==> Active(seats, seat) && !(seat.user == u && seat.party == p)
  {
  }

  // ---------------------------------------------------------------- stashes

  lemma CreateStashSafe(db: DB, c: CharId, s: StashId)
    requires Valid(db) && CanCreateStash(db, c, s)
    ensures Valid(CreateStash(db, c, s))
  {
  }

  // ---------------------------------------------------------------- sweeping

  /** What a set of stashes must be for its contents to be swept into Recovered Loot. */
  ghost predicate Sweepable(db: DB, from: set<StashId>, to: StashId) {
    && from <= db.stashes.Keys && to in db.stashes && to !in from && !db.stashes[to].carried
    && (forall s :: s in from ==> SameParty(db, s, to))
  }

  lemma SweepItemsSafe(db: DB, from: set<StashId>, to: StashId)
    requires Valid(db) && Sweepable(db, from, to)
    ensures var r := SweepStashes(db, from, to);
      ItemsOk(r.stashes, r.catalog, r.items) && HoldingsOk(r.stashes, r.holdings)
  {
    var r := SweepStashes(db, from, to);
    C.SweepSolvent(db.holdings, from, to);
    assert r.holdings.Keys == r.stashes.Keys;
    forall i | i in r.items ensures ItemOk(r.stashes, r.catalog, r.items[i]) {
      assert ItemOk(db.stashes, db.catalog, db.items[i]);
    }
  }

  lemma DeleteStashSweepable(db: DB, s: StashId)
    requires Valid(db) && CanDeleteStash(db, s)
    ensures Sweepable(db, {s}, LootOf(db, s))
  {
    assert StashOk(db.parties, db.characters, s, db.stashes[s]);
  }

  lemma DeleteStashSafe(db: DB, s: StashId)
    requires Valid(db) && CanDeleteStash(db, s)
    ensures Valid(DeleteStash(db, s))
  {
    DeleteStashSweepable(db, s);
    SweepItemsSafe(db, {s}, LootOf(db, s));
    var r := DeleteStash(db, s);
    forall t | t in r.stashes ensures StashOk(r.parties, r.characters, t, r.stashes[t]) {
      assert StashOk(db.parties, db.characters, t, db.stashes[t]);
    }
  }

  // ---------------------------------------------------------------- characters

  lemma AddCharacterSafe(db: DB, u: UserId, p: PartyId, c: CharId, inventory: StashId, now: Time)
    requires Valid(db) && CanAddCharacter(db, u, p, c, inventory)
    ensures Valid(AddCharacter(db, u, p, c, inventory, now))
    // the row is linked in place or created afresh, never created over a soft-deleted one
    ensures Seat(u, p, Player) in db.seats ==> Active(db.seats, Seat(u, p, Player))
  {
    AddCharacterMembers(db, u, p, c, inventory, now);
    AddCharacterStashes(db, u, p, c, inventory, now);
  }

  lemma AddCharacterMembers(db: DB, u: UserId, p: PartyId, c: CharId, inventory: StashId, now: Time)
    requires Valid(db) && CanAddCharacter(db, u, p, c, inventory)
    ensures var r := AddCharacter(db, u, p, c, inventory, now);
      PartiesOk(r.parties, r.seats) && SeatsOk(r.seats) && LinksOk(r.parties, r.seats, r.characters)
    ensures Seat(u, p, Player) in db.seats ==> Active(db.seats, Seat(u, p, Player))
  {
    var r := AddCharacter(db, u, p, c, inventory, now);
    var mine := Seat(u, p, Player);
    AddCharacterActive(db, u, p, c, inventory, now);
    forall seat: Seat | seat in r.seats ensures RowLinked(r.parties, r.characters, seat, r.seats[seat]) {
      if seat != mine {
        assert RowLinked(db.parties, db.characters, seat, db.seats[seat]);
      }
    }
    forall d | d in r.characters ensures CharacterLinked(r.parties, r.seats, d, r.characters[d]) {
      if d != c {
        assert CharacterLinked(db.parties, db.seats, d, db.characters[d]);
      }
    }
  }

  lemma AddCharacterActive(db: DB, u: UserId, p: PartyId, c: CharId, inventory: StashId, now: Time)
    requires Valid(db) && CanAddCharacter(db, u, p, c, inventory)
    ensures var r := AddCharacter(db, u, p, c, inventory, now);
      && PartiesOk(r.parties, r.seats) && SeatsOk(r.seats)
      && forall seat: Seat :: Active(r.seats, seat) <==> seat == Seat(u, p, Player) || Active(db.seats, seat)
    ensures Seat(u, p, Player) in db.seats ==> Active(db.seats, Seat(u, p, Player))
  {
    var r := AddCharacter(db, u, p, c, inventory, now);
    assert forall seat: Seat :: Active(r.seats, seat) <==> seat == Seat(u, p, Player) || Active(db.seats, seat);
    GovernmentUnchanged(db.parties, db.seats, r.seats, p);
  }

  /** Gaining an active player leaves every party governed as it was. */
  lemma GovernmentUnchanged(parties: Parties, a: Seats, b: Seats, p: PartyId)
    requires PartiesOk(parties, a) && Open(parties, p)
    requires forall seat: Seat :: seat in b ==> seat in a || seat.party == p
    requires forall seat: Seat :: Active(a, seat) ==> Active(b, seat)
    requires forall seat: Seat :: Active(b, seat) && (seat.role == Dm || seat.party != p) ==> Active(a, seat)
    ensures PartiesOk(parties, b)
  {
    forall q | q in parties ensures if parties[q].archived then Deserted(q, b) else Governed(parties[q], q, b) {
      assert if parties[q].archived then Deserted(q, a) else Governed(parties[q], q, a);
    }
  }

  lemma AddCharacterStashes(db: DB, u: UserId, p: PartyId, c: CharId, inventory: StashId, now: Time)
    requires Valid(db) && CanAddCharacter(db, u, p, c, inventory)
    ensures var r := AddCharacter(db, u, p, c, inventory, now);
      && StashesOk(r.parties, r.characters, r.stashes) && HoldingsOk(r.stashes, r.holdings)
      && ItemsOk(r.stashes, r.catalog, r.items)
  {
    var r := AddCharacter(db, u, p, c, inventory, now);
    forall t | t in r.stashes ensures StashOk(r.parties, r.characters, t, r.stashes[t]) {
      if t != inventory {
        assert StashOk(db.parties, db.characters, t, db.stashes[t]);
      }
    }
    forall i | i in r.items ensures ItemOk(r.stashes, r.catalog, r.items[i]) {
      assert ItemOk(db.stashes, db.catalog, db.items[i]);
    }
  }

  lemma OwnedSweepable(db: DB, c: CharId)
    requires Valid(db) && CanDeleteCharacter(db, c)
    ensures Sweepable(db, OwnedBy(db.stashes, c), db.parties[db.characters[c].party].loot)
  {
    forall s | s in OwnedBy(db.stashes, c) ensures SameParty(db, s, db.parties[db.characters[c].party].loot) {
      assert StashOk(db.parties, db.characters, s, db.stashes[s]);
    }
  }

  lemma DeleteCharacterSafe(db: DB, c: CharId)
    requires Valid(db) && CanDeleteCharacter(db, c)
    ensures Valid(DeleteCharacter(db, c))
    ensures SameActivity(db.seats, DeleteCharacter(db, c).seats)
    ensures DeleteCharacter(db, c).parties == db.parties
    // nothing refers to the character any more
    ensures c !in DeleteCharacter(db, c).characters
    ensures forall seat :: seat in DeleteCharacter(db, c).seats ==> DeleteCharacter(db, c).seats[seat].character != Some(c)
    ensures forall s :: s in DeleteCharacter(db, c).stashes ==> DeleteCharacter(db, c).stashes[s].owner != Some(c)
  {
    var r := DeleteCharacter(db, c);
    var from, to := OwnedBy(db.stashes, c), db.parties[db.characters[c].party].loot;
    OwnedSweepable(db, c);
    SweepItemsSafe(db, from, to);
    SameActivityKeeps(db.parties, db.seats, r.seats);
    DeleteCharacterLinks(db, c);
    DeleteCharacterStashes(db, c);
  }

  lemma DeleteCharacterLinks(db: DB, c: CharId)
    requires Valid(db) && CanDeleteCharacter(db, c)
    ensures LinksOk(db.parties, Unlink(db.seats, c), db.characters - {c})
    ensures forall seat :: seat in db.seats ==> Unlink(db.seats, c)[seat].character != Some(c)
  {
    var seats := Unlink(db.seats, c);
    forall d | d in db.characters - {c} ensures CharacterLinked(db.parties, seats, d, db.characters[d]) {
      assert CharacterLinked(db.parties, db.seats, d, db.characters[d]);
    }
    forall seat: Seat | seat in seats ensures RowLinked(db.parties, db.characters - {c}, seat, seats[seat]) && seats[seat].character != Some(c) {
      assert RowLinked(db.parties, db.characters, seat, db.seats[seat]);
    }
  }

  lemma DeleteCharacterStashes(db: DB, c: CharId)
    requires Valid(db) && CanDeleteCharacter(db, c)
    ensures StashesOk(db.parties, db.characters - {c}, db.stashes - OwnedBy(db.stashes, c))
    ensures forall s :: s in db.stashes - OwnedBy(db.stashes, c) ==> db.stashes[s].owner != Some(c)
  {
    var stashes := db.stashes - OwnedBy(db.stashes, c);
    forall t | t in stashes ensures StashOk(db.parties, db.characters - {c}, t, stashes[t]) && stashes[t].owner != Some(c) {
      assert StashOk(db.parties, db.characters, t, db.stashes[t]);
    }
  }

  // ---------------------------------------------------------------- founding and leaving parties

  lemma FoundSafe(db: DB, u: UserId, p: PartyId, pool: StashId, loot: StashId, character: Option<NewCharacter>, now: Time)
    requires Valid(db) && CanFound(db, p, pool, loot, character)
    ensures Valid(Found(db, u, p, pool, loot, character, now))
  {
    var shell := Found(db, u, p, pool, loot, None, now);
    FoundMembers(db, u, p, pool, loot, now);
    FoundStashes(db, u, p, pool, loot, now);
    FoundItems(db, u, p, pool, loot, now);
    if character.Some? {
      AddCharacterSafe(shell, u, p, character.value.id, character.value.inventory, now);
    }
  }

  lemma FoundMembers(db: DB, u: UserId, p: PartyId, pool: StashId, loot: StashId, now: Time)
    requires Valid(db) && CanFound(db, p, pool, loot, None)
    ensures var r := Found(db, u, p, pool, loot, None, now);
      PartiesOk(r.parties, r.seats) && SeatsOk(r.seats) && LinksOk(r.parties, r.seats, r.characters)
  {
    var r := Found(db, u, p, pool, loot, None, now);
    assert forall seat: Seat :: seat in db.seats ==> seat.party != p;
    assert forall seat: Seat :: Active(r.seats, seat) <==> seat == Seat(u, p, Dm) || Active(db.seats, seat);
    assert Governed(r.parties[p], p, r.seats);
    forall q | q in r.parties && q != p
      ensures if r.parties[q].archived then Deserted(q, r.seats) else Governed(r.parties[q], q, r.seats)
    {
      assert r.parties[q] == db.parties[q];
    }
    forall seat: Seat | seat in r.seats ensures RowLinked(r.parties, r.characters, seat, r.seats[seat]) {
      if seat in db.seats {
        assert RowLinked(db.parties, db.characters, seat, db.seats[seat]);
      }
    }
    forall c | c in r.characters ensures CharacterLinked(r.parties, r.seats, c, r.characters[c]) {
      assert CharacterLinked(db.parties, db.seats, c, db.characters[c]);
    }
  }

  lemma FoundStashes(db: DB, u: UserId, p: PartyId, pool: StashId, loot: StashId, now: Time)
    requires Valid(db) && CanFound(db, p, pool, loot, None)
    ensures var r := Found(db, u, p, pool, loot, None, now);
      StashesOk(r.parties, r.characters, r.stashes) && HoldingsOk(r.stashes, r.holdings)
  {
    FoundStashRows(db, u, p, pool, loot, now);
  }

  lemma FoundStashRows(db: DB, u: UserId, p: PartyId, pool: StashId, loot: StashId, now: Time)
    requires StashesOk(db.parties, db.characters, db.stashes) && CanFound(db, p, pool, loot, None)
    ensures var r := Found(db, u, p, pool, loot, None, now); StashesOk(r.parties, r.characters, r.stashes)
  {
    var r := Found(db, u, p, pool, loot, None, now);
    forall t | t in r.stashes ensures StashOk(r.parties, r.characters, t, r.stashes[t]) {
      if t in db.stashes {
        assert StashOk(db.parties, db.characters, t, db.stashes[t]);
      }
    }
  }

  lemma FoundItems(db: DB, u: UserId, p: PartyId, pool: StashId, loot: StashId, now: Time)
    requires Valid(db) && CanFound(db, p, pool, loot, None)
    ensures var r := Found(db, u, p, pool, loot, None, now);
      ItemsOk(r.stashes, r.catalog, r.items) && ShopsOk(r.parties, r.shops, r.stock)
  {
    var r := Found(db, u, p, pool, loot, None, now);
    forall i | i in r.items ensures ItemOk(r.stashes, r.catalog, r.items[i]) {
      assert ItemOk(db.stashes, db.catalog, db.items[i]);
    }
  }

  /** In an open party the character a row links to can always be deleted. */
  lemma LinkedDeletable(db: DB, u: UserId, p: PartyId)
    requires Valid(db) && Open(db.parties, p)
    ensures CharacterOf(db.seats, u, p).Some? ==> CanDeleteCharacter(db, CharacterOf(db.seats, u, p).value)
  {
  }

  lemma DepartSafe(db: DB, u: UserId, p: PartyId, now: Time)
    requires Valid(db) && CanDepart(db, u, p)
    ensures Valid(Depart(db, u, p, now))
  {
    DepartedCharacter(db, u, p);
    var left := WithoutCharacterOf(db, u, p);
    DepartedMembers(left, u, p, now);
    DepartedRest(left, u, p);
  }

  /** They are no longer a member, everyone else's membership is as before, and the DM stays. */
  lemma DepartGone(db: DB, u: UserId, p: PartyId, now: Time)
    requires Valid(db) && CanDepart(db, u, p)
    ensures var seats := Depart(db, u, p, now).seats;
      && (forall v, q :: IsMember(seats, v, q) <==> IsMember(db.seats, v, q) && (v != u || q != p))
      && IsMember(seats, db.parties[p].owner, p)
  {
    DepartMembers(db, u, p, now);
    assert Governed(db.parties[p], p, db.seats);
    assert IsMember(db.seats, db.parties[p].owner, p);
  }

  lemma DepartMembers(db: DB, u: UserId, p: PartyId, now: Time)
    requires Valid(db) && CanDepart(db, u, p)
    ensures forall v, q :: IsMember(Depart(db, u, p, now).seats, v, q) <==> IsMember(db.seats, v, q) && (v != u || q != p)
  {
    DepartedCharacter(db, u, p);
    DeletedGone(WithoutCharacterOf(db, u, p).seats, u, p, now);
  }

  lemma DeletedGone(seats: Seats, u: UserId, p: PartyId, now: Time)
    ensures forall v, q :: IsMember(SoftDelete(seats, u, p, now), v, q) <==> IsMember(seats, v, q) && (v != u || q != p)
  {
    SoftDeleteActive(seats, u, p, now);
  }

  lemma DepartedCharacter(db: DB, u: UserId, p: PartyId)
    requires Valid(db) && CanDepart(db, u, p)
    ensures var left := WithoutCharacterOf(db, u, p);
      && Valid(left) && left.parties == db.parties
      && (forall seat: Seat :: Active(left.seats, seat) <==> Active(db.seats, seat))
      && (forall seat: Seat :: seat in left.seats && seat.user == u && seat.party == p ==> left.seats[seat].character.None?)
  {
    LinkedDeletable(db, u, p);
    NoLinkLeft(db, u, p);
    var c := CharacterOf(db.seats, u, p);
    if c.Some? {
      DeleteCharacterSafe(db, c.value);
    }
  }

  lemma DepartedRest(left: DB, u: UserId, p: PartyId)
    requires Valid(left) && p in left.parties
    ensures var parties := WithoutBanker(left.parties, u, p);
      StashesOk(parties, left.characters, left.stashes) && ShopsOk(parties, left.shops, left.stock)
  {
    PartiesUnderStashes(left, left.(parties := WithoutBanker(left.parties, u, p)));
  }

  lemma NoLinkLeft(db: DB, u: UserId, p: PartyId)
    requires Valid(db) && CanDepart(db, u, p)
    ensures var left := WithoutCharacterOf(db, u, p);
      forall seat: Seat :: seat in left.seats && seat.user == u && seat.party == p ==> left.seats[seat].character.None?
  {
    LinkedDeletable(db, u, p);
  }

  lemma DepartedMembers(left: DB, u: UserId, p: PartyId, now: Time)
    requires Valid(left) && Open(left.parties, p) && !Active(left.seats, Seat(u, p, Dm))
    requires forall seat: Seat :: seat in left.seats && seat.user == u && seat.party == p ==> left.seats[seat].character.None?
    ensures var seats := SoftDelete(left.seats, u, p, now);
            var parties := WithoutBanker(left.parties, u, p);
      PartiesOk(parties, seats) && SeatsOk(seats) && LinksOk(parties, seats, left.characters)
  {
    var seats := SoftDelete(left.seats, u, p, now);
    var parties := WithoutBanker(left.parties, u, p);
    SoftDeleteActive(left.seats, u, p, now);
    forall q | q in parties
      ensures if parties[q].archived then Deserted(q, seats) else Governed(parties[q], q, seats)
    {
      assert if left.parties[q].archived then Deserted(q, left.seats) else Governed(left.parties[q], q, left.seats);
    }
    forall c | c in left.characters ensures CharacterLinked(parties, seats, c, left.characters[c]) {
      assert CharacterLinked(left.parties, left.seats, c, left.characters[c]);
    }
    forall seat: Seat | seat in seats ensures RowLinked(parties, left.characters, seat, seats[seat]) {
      assert RowLinked(left.parties, left.characters, seat, left.seats[seat]);
    }
  }

  /** The last member of a party is its DM, and when they leave it is archived with nobody active. */
  lemma ArchiveSafe(db: DB, u: UserId, p: PartyId, now: Time)
    requires Valid(db) && Open(db.parties, p) && Sole(db.seats, u, p)
    ensures Valid(Archive(db, u, p, now))
    ensures u == db.parties[p].owner && db.parties[p].banker.None?
  {
    var r := Archive(db, u, p, now);
    SoftDeleteActive(db.seats, u, p, now);
    assert Governed(db.parties[p], p, db.seats);
    assert IsMember(db.seats, db.parties[p].owner, p);
    assert db.parties[p].banker.Some? ==> IsMember(db.seats, db.parties[p].banker.value, p);
    ArchivedMembers(db, u, p, now);
    PartiesUnderStashes(db, r);
  }

  lemma ArchivedMembers(db: DB, u: UserId, p: PartyId, now: Time)
    requires Valid(db) && Open(db.parties, p) && Sole(db.seats, u, p)
    ensures var r := Archive(db, u, p, now);
      PartiesOk(r.parties, r.seats) && SeatsOk(r.seats) && LinksOk(r.parties, r.seats, r.characters)
  {
    var r := Archive(db, u, p, now);
    SoftDeleteActive(db.seats, u, p, now);
    forall v, role ensures !Active(r.seats, Seat(v, p, role)) {
      assert role == Dm || role == Player;
      assert Active(db.seats, Seat(v, p, role)) ==> IsMember(db.seats, v, p);
    }
    forall q | q in r.parties && q != p
      ensures if r.parties[q].archived then Deserted(q, r.seats) else Governed(r.parties[q], q, r.seats)
    {
      assert r.parties[q] == db.parties[q];
    }
    forall c | c in r.characters ensures CharacterLinked(r.parties, r.seats, c, r.characters[c]) {
      assert CharacterLinked(db.parties, db.seats, c, db.characters[c]);
    }
    forall seat: Seat | seat in r.seats ensures RowLinked(r.parties, r.characters, seat, r.seats[seat]) {
      assert RowLinked(db.parties, db.characters, seat, db.seats[seat]);
    }
  }
}
