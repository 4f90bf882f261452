/** What the actions on parties do, told without their steps. */
module Effects {
  import opened Currency
  import opened Ledger
  import opened Members
  import opened MembersSafe
  import opened Tables
  import opened Wrappers
  import C = CoinRows
  import I = ItemRows

  // ---------------------------------------------------------------- who is active

  /** Whether a row is active after the action. */
  predicate ActiveAfter(db: DB, a: PartyAction, seat: Seat) {
    match a
    case Bootstrap(u, p, _, _, character, _) =>
      Active(db.seats, seat) || seat == Seat(u, p, Dm) || (character.Some? && seat == Seat(u, p, Player))
    case JoinParty(u, p, _) => Active(db.seats, seat) || seat == Seat(u, p, Player)
    case LeaveParty(u, p, _) => Active(db.seats, seat) && !(seat.user == u && seat.party == p)
    case KickPlayer(_, u, p, _) => Active(db.seats, seat) && !(seat.user == u && seat.party == p)
    case DmTransfer(p, outgoing, incoming, _) =>
      && seat != Seat(outgoing, p, Dm)
      && (Active(db.seats, seat) || seat == Seat(incoming, p, Dm) || seat == Seat(outgoing, p, Player))
    case AppointBanker(_, _) => Active(db.seats, seat)
    case RevokeBanker(_) => Active(db.seats, seat)
  }

  /** Every membership action changes who is active in just the way it says, for every user and party. */
  lemma PartyActionSeats(db: DB, a: PartyAction, seat: Seat)
    requires Valid(db) && LegalOnParty(db, a)
    ensures Active(ApplyParty(db, a).seats, seat) <==> ActiveAfter(db, a, seat)
  {
    match a
    case Bootstrap(u, p, pool, loot, character, now) => FoundSeats(db, u, p, pool, loot, character, now, seat);
    case JoinParty(u, p, now) => JoinSeats(db, u, p, now, seat);
    case LeaveParty(u, p, now) => LeaveSeats(db, u, p, now, seat);
    case KickPlayer(actor, u, p, now) => DepartSeats(db, u, p, now, seat);
    case DmTransfer(p, outgoing, incoming, now) => TransferDmActive(db.seats, p, outgoing, incoming, now);
    case AppointBanker(p, u) => BankerSeats(db, p, Some(u));
    case RevokeBanker(p) => BankerSeats(db, p, None);
  }

  lemma FoundSeats(db: DB, u: UserId, p: PartyId, pool: StashId, loot: StashId, character: Option<NewCharacter>, now: Time, seat: Seat)
    ensures Active(Found(db, u, p, pool, loot, character, now).seats, seat)
      <==> Active(db.seats, seat) || seat == Seat(u, p, Dm) || (character.Some? && seat == Seat(u, p, Player))
  {
  }

  lemma JoinSeats(db: DB, u: UserId, p: PartyId, now: Time, seat: Seat)
    ensures Active(Join(db, u, p, now).seats, seat) <==> Active(db.seats, seat) || seat == Seat(u, p, Player)
  {
  }

  lemma BankerSeats(db: DB, p: PartyId, banker: Option<UserId>)
    requires p in db.parties
    ensures SetBanker(db, p, banker).seats == db.seats
  {
  }

  lemma LeaveSeats(db: DB, u: UserId, p: PartyId, now: Time, seat: Seat)
    requires Valid(db) && CanLeave(db, u, p)
    ensures Active(ApplyParty(db, PartyAction.LeaveParty(u, p, now)).seats, seat)
      <==> Active(db.seats, seat) && !(seat.user == u && seat.party == p)
  {
    if Sole(db.seats, u, p) {
      SoftDeleteActive(db.seats, u, p, now);
    } else {
      DepartSeats(db, u, p, now, seat);
    }
  }

  lemma DepartSeats(db: DB, u: UserId, p: PartyId, now: Time, seat: Seat)
    requires Valid(db) && CanDepart(db, u, p)
    ensures Active(Depart(db, u, p, now).seats, seat) <==> Active(db.seats, seat) && !(seat.user == u && seat.party == p)
  {
    DepartedCharacter(db, u, p);
    SoftDeleteActive(WithoutCharacterOf(db, u, p).seats, u, p, now);
  }

  /** Whoever left may join again under the same key, and comes back without a character. */
  lemma RejoinFresh(db: DB, u: UserId, p: PartyId, now: Time, later: Time)
    requires Valid(db) && CanDepart(db, u, p)
    ensures var left := Depart(db, u, p, now);
      && CanJoin(left, u, p)
      && var back := Join(left, u, p, later);
         && Valid(back) && IsMember(back.seats, u, p)
         && CharacterOf(back.seats, u, p).None?
         && forall seat: Seat :: Active(back.seats, seat) <==>
              seat == Seat(u, p, Player) || (Active(db.seats, seat) && !(seat.user == u && seat.party == p))
  {
    DepartSafe(db, u, p, now);
    DepartedOpen(db, u, p, now);
    var left := Depart(db, u, p, now);
    forall seat: Seat ensures Active(Join(left, u, p, later).seats, seat) <==>
        seat == Seat(u, p, Player) || (Active(db.seats, seat) && !(seat.user == u && seat.party == p)) {
      DepartSeats(db, u, p, now, seat);
      JoinSeats(left, u, p, later, seat);
    }
    JoinSafe(left, u, p, later);
  }

  lemma DepartedOpen(db: DB, u: UserId, p: PartyId, now: Time)
    requires Valid(db) && CanDepart(db, u, p)
    ensures CanJoin(Depart(db, u, p, now), u, p)
  {
    DepartSeats(db, u, p, now, Seat(u, p, Player));
    assert WithoutCharacterOf(db, u, p).parties == db.parties;
  }

  /** Handing the DM role over and back restores the owner and the DM; the outgoing DM has become a player too. */
  lemma HandedBack(db: DB, p: PartyId, a: UserId, b: UserId, now: Time, later: Time)
    requires Valid(db) && CanTransferDm(db, p, a, b)
    ensures var over := TransferDm(db, p, a, b, now);
      && CanTransferDm(over, p, b, a)
      && var back := TransferDm(over, p, b, a, later);
         && back.parties[p].owner == a == db.parties[p].owner
         && back.parties[p].banker == (if db.parties[p].banker == Some(b) then None else db.parties[p].banker)
         && forall seat: Seat :: Active(back.seats, seat) <==> Active(db.seats, seat) || seat == Seat(a, p, Player)
  {
    assert Governed(db.parties[p], p, db.seats);
    TransferDmActive(db.seats, p, a, b, now);
    var over := TransferDm(db, p, a, b, now);
    TransferDmActive(over.seats, p, b, a, later);
  }

  // ---------------------------------------------------------------- where a character's things go

  /**
   * When a character goes, whatever its stashes held is in its party's Recovered Loot, unit by unit
   * and coin by coin, and no other stash has gained or lost anything.
   */
  lemma CharacterLeavesAll(db: DB, c: CharId, d: DefId, coin: Denom, others: set<StashId>)
    requires Valid(db) && CanDeleteCharacter(db, c)
    requires db.parties[db.characters[c].party].loot !in others
    ensures var r := DeleteCharacter(db, c);
            var loot := db.parties[db.characters[c].party].loot;
            var owned := OwnedBy(db.stashes, c);
      && I.UnitsIn(r.items, d, {loot}) == I.UnitsIn(db.items, d, {loot} + owned)
      && C.CoinsIn(r.holdings, coin, {loot}) == C.CoinsIn(db.holdings, coin, {loot} + owned)
      && I.UnitsIn(r.items, d, others) == I.UnitsIn(db.items, d, others - owned)
      && C.CoinsIn(r.holdings, coin, others) == C.CoinsIn(db.holdings, coin, others - owned)
  {
    var loot := db.parties[db.characters[c].party].loot;
    var owned := OwnedBy(db.stashes, c);
    OwnedSweepable(db, c);
    I.SweepUnits(db.items, owned, loot, d, {loot});
    I.SweepUnits(db.items, owned, loot, d, others);
    C.SweepCoins(db.holdings, owned, loot, coin, {loot});
    C.SweepCoins(db.holdings, owned, loot, coin, others);
  }

  /** So it is when a stash goes: what it held is in the Recovered Loot of its character's party. */
  lemma StashLeavesAll(db: DB, s: StashId, d: DefId, coin: Denom, others: set<StashId>)
    requires Valid(db) && CanDeleteStash(db, s)
    ensures var r, owner := ApplyStashes(db, DropStash(s)), db.stashes[s].owner;
      && owner.Some? && owner.value in db.characters && db.characters[owner.value].party in db.parties
      && var loot := db.parties[db.characters[owner.value].party].loot;
         && r.stashes == db.stashes - {s}
         && I.UnitsIn(r.items, d, {loot}) == I.UnitsIn(db.items, d, {loot, s})
         && C.CoinsIn(r.holdings, coin, {loot}) == C.CoinsIn(db.holdings, coin, {loot, s})
         && (loot !in others ==>
               && I.UnitsIn(r.items, d, others) == I.UnitsIn(db.items, d, others - {s})
               && C.CoinsIn(r.holdings, coin, others) == C.CoinsIn(db.holdings, coin, others - {s}))
  {
    assert StashOk(db.parties, db.characters, s, db.stashes[s]);
    DeleteStashSweepable(db, s);
    var loot := LootOf(db, s);
    assert {loot} + {s} == {loot, s};
    I.SweepUnits(db.items, {s}, loot, d, {loot});
    I.SweepUnits(db.items, {s}, loot, d, others);
    C.SweepCoins(db.holdings, {s}, loot, coin, {loot});
    C.SweepCoins(db.holdings, {s}, loot, coin, others);
  }

  // ---------------------------------------------------------------- which rows an action touches

  predicate Touches(a: ItemAction, j: ItemId) {
    match a
    case Acquire(_, _, _, _, newId, pick) => if pick.Some? then j == pick.value else j == newId
    case Consume(i, _) => j == i
    case Transfer(i, _, _, _, newId, pick) => j == i || j == newId || pick == Some(j)
    case Split(i, _, newId) => j == i || j == newId
    case SetFlag(i, _, newId) => j == i || j == newId
    case ClearFlag(i, _, pick) => j == i || pick == Some(j)
    case EditItem(i, _, _, _) => j == i
  }

  /** The row named, the row picked and the new row are all an item action touches. */
  lemma OtherRowsStay(db: DB, a: ItemAction, j: ItemId)
    requires LegalOnItems(db, a) && !Touches(a, j)
    ensures j in ApplyItems(db, a) <==> j in db.items
    ensures j in db.items ==> ApplyItems(db, a)[j] == db.items[j]
  {
  }

  /** Two rows agree in all that moving, splitting and flagging units leaves alone. */
  predicate SameKind(a: Item, b: Item) {
    a.definition == b.definition && a.notes == b.notes && a.charges == b.charges && a.details == b.details
  }

  /** Unless something is acquired or edited, a row stays of its kind, and a new row is of the kind of the one it came from. */
  lemma KindsCarried(db: DB, a: ItemAction, j: ItemId)
    requires LegalOnItems(db, a) && !a.Acquire? && !a.EditItem? && j in ApplyItems(db, a)
    ensures a.i in db.items
    ensures SameKind(ApplyItems(db, a)[j], db.items[if j in db.items then j else a.i])
  {
  }

  // ---------------------------------------------------------------- what other actions do to rows

  predicate Flagged(item: Item) {
    item.equipped || item.attuned
  }

  /** Every row is one from before, as it was or taken out of its container and without flags. */
  ghost predicate OnlySwept(before: Items, after: Items) {
    forall i :: i in after ==>
      i in before && (after[i] == before[i] ||
        (SameKind(after[i], before[i]) && after[i].quantity == before[i].quantity && after[i].container.None? && !Flagged(after[i])))
  }

  lemma DepartSweeps(db: DB, u: UserId, p: PartyId, now: Time)
    requires Valid(db) && CanDepart(db, u, p)
    ensures OnlySwept(db.items, Depart(db, u, p, now).items)
  {
    assert OnlySwept(db.items, WithoutCharacterOf(db, u, p).items);
  }

  lemma SameSwept(items: Items)
    ensures OnlySwept(items, items)
  {
  }

  lemma OfficeItems(db: DB, p: PartyId, u: UserId, v: UserId, now: Time, banker: Option<UserId>)
    ensures Join(db, u, p, now).items == db.items
    ensures p in db.parties ==> SetBanker(db, p, banker).items == db.items && Archive(db, u, p, now).items == db.items
    ensures p in db.parties && Seat(u, p, Dm) in db.seats ==> TransferDm(db, p, u, v, now).items == db.items
  {
  }

  lemma FoundItems(db: DB, u: UserId, p: PartyId, pool: StashId, loot: StashId, character: Option<NewCharacter>, now: Time)
    ensures Found(db, u, p, pool, loot, character, now).items == db.items
  {
  }

  lemma PartySweeps(db: DB, a: PartyAction)
    requires Valid(db) && LegalOnParty(db, a)
    ensures OnlySwept(db.items, ApplyParty(db, a).items)
  {
    SameSwept(db.items);
    match a
    case Bootstrap(u, p, pool, loot, character, now) => FoundItems(db, u, p, pool, loot, character, now);
    case JoinParty(u, p, now) => OfficeItems(db, p, u, u, now, None);
    case LeaveParty(u, p, now) =>
      if Sole(db.seats, u, p) {
        OfficeItems(db, p, u, u, now, None);
      } else {
        DepartSweeps(db, u, p, now);
      }
    case KickPlayer(actor, u, p, now) => DepartSweeps(db, u, p, now);
    case DmTransfer(p, outgoing, incoming, now) => OfficeItems(db, p, outgoing, incoming, now, None);
    case AppointBanker(p, u) => OfficeItems(db, p, u, u, 0, Some(u));
    case RevokeBanker(p) => OfficeItems(db, p, 0, 0, 0, None);
  }

  lemma StashesSweep(db: DB, a: StashAction)
    requires Valid(db) && LegalOnStashes(db, a)
    ensures OnlySwept(db.items, ApplyStashes(db, a).items)
  {
  }

  lemma SetupKeepsItems(db: DB, a: SetupAction)
    requires LegalOnSetup(db, a)
    ensures ApplySetup(db, a).items == db.items
  {
  }

  /** Actions on neither items nor trade move rows by sweeping stashes, if at all. */
  lemma OthersSweep(db: DB, a: Action)
    requires Valid(db) && Legal(db, a) && !a.OnItems? && !a.OnTrade?
    ensures OnlySwept(db.items, Apply(db, a).items)
  {
    SameSwept(db.items);
    match a
    case OnParty(x) => PartySweeps(db, x);
    case OnStashes(x) => StashesSweep(db, x);
    case OnSetup(x) => SetupKeepsItems(db, x);
    case OnCoins(x) =>
  }
}
