/** Equipped and attuned rows of a single unit, and the actions that stack onto them. */
module Singles {
  import opened Currency
  import opened Effects
  import opened Ledger
  import opened Tables
  import opened Wrappers
  import I = ItemRows
  import P = Pricing

  /** Whatever is equipped or attuned is one unit. */
  ghost predicate SinglesOnly(items: Items) {
    forall i :: i in items && Flagged(items[i]) ==> items[i].quantity == 1
  }

  /** `findFirst` has picked a row with a flag to stack onto. */
  predicate StacksOnFlagged(items: Items, a: Action) {
    match a
    case OnItems(Acquire(_, _, _, _, _, pick)) => pick.Some? && pick.value in items && Flagged(items[pick.value])
    case OnItems(Transfer(_, _, _, _, _, pick)) => pick.Some? && pick.value in items && Flagged(items[pick.value])
    case OnTrade(Purchase(_, _, _, _, _, pick)) => pick.Some? && pick.value in items && Flagged(items[pick.value])
    case _ => false
  }

  /** Where flagged rows are single, an action leaves them so exactly unless it stacks onto one. */
  lemma SinglesKept(db: DB, a: Action)
    requires Valid(db) && Legal(db, a) && SinglesOnly(db.items)
    ensures SinglesOnly(Apply(db, a).items) <==> !StacksOnFlagged(db.items, a)
  {
    match a
    case OnItems(x) => ItemSingles(db, x);
    case OnTrade(x) => TradeSingles(db, x);
    case _ => OthersSweep(db, a);
  }

  lemma ClearedOnto(items: Items, i: ItemId, flag: I.Flag, pick: Option<ItemId>)
    requires CanClearFlag(items, i, flag, pick) && pick.Some?
    ensures pick.value in items && pick.value != i && I.Mundane(I.WithFlag(items[i], flag, false)) && !Flagged(items[pick.value])
  {
    var patched := I.WithFlag(items[i], flag, false);
    assert I.Mundane(patched) && I.FindFirst(items, pick, I.RestacksWith(patched, i));
    var k := pick.value;
    var other := items[k];
    assert I.RestacksWith(patched, i)(k, other);
    assert I.Mundane(other);
  }

  lemma ItemSingles(db: DB, a: ItemAction)
    requires ItemsOk(db.stashes, db.catalog, db.items) && LegalOnItems(db, a) && SinglesOnly(db.items)
    ensures SinglesOnly(ApplyItems(db, a)) <==> !StacksOnFlagged(db.items, OnItems(a))
  {
    var after := ApplyItems(db, a);
    if StacksOnFlagged(db.items, OnItems(a)) {
      var k := a.pick.value;
      assert k in after && Flagged(after[k]);
      if a.Transfer? {
        assert ItemOk(db.stashes, db.catalog, db.items[a.i]);
      }
    } else {
      if a.ClearFlag? && a.pick.Some? {
        ClearedOnto(db.items, a.i, a.flag, a.pick);
      }
      forall i | i in after && Flagged(after[i]) ensures after[i].quantity == 1 {
        assert i in db.items ==> ItemOk(db.stashes, db.catalog, db.items[i]);
        assert i in db.items && Flagged(db.items[i]) ==> db.items[i].quantity == 1;
      }
    }
  }

  lemma TradeSingles(db: DB, a: TradeAction)
    requires ItemsOk(db.stashes, db.catalog, db.items) && LegalOnTrade(db, a) && SinglesOnly(db.items)
    ensures SinglesOnly(ApplyTrade(db, a).items) <==> !StacksOnFlagged(db.items, OnTrade(a))
  {
    var after := ApplyTrade(db, a).items;
    if StacksOnFlagged(db.items, OnTrade(a)) {
      assert a.pick.value in after && Flagged(after[a.pick.value]);
    } else {
      forall i | i in after && Flagged(after[i]) ensures after[i].quantity == 1 {
        assert i in db.items ==> ItemOk(db.stashes, db.catalog, db.items[i]);
        assert i in db.items && Flagged(db.items[i]) ==> db.items[i].quantity == 1;
      }
    }
  }

  // ---------------------------------------------------------------- what the caller can tell

  /** Some flagged row matches what the action would stack onto. */
  ghost predicate MatchesFlagged(items: Items, matches: (ItemId, Item) -> bool) {
    exists j :: j in items && Flagged(items[j]) && matches(j, items[j])
  }

  /** The request may stack onto a flagged row: told from the tables, before the database picks. */
  ghost predicate MayStackOnFlagged(db: DB, a: Action) {
    match a
    case OnItems(Acquire(s, d, _, notes, _, _)) => MatchesFlagged(db.items, I.StacksWith(s, d, notes))
    case OnItems(Transfer(i, quantity, to, _, _, _)) =>
      && i in db.items && I.MovesAll(db.items, i, quantity)
      && MatchesFlagged(db.items, I.TransferStacksWith(db.items[i], i, to))
    case OnTrade(Purchase(_, k, target, _, _, _)) =>
      k in db.stock && MatchesFlagged(db.items, I.PurchaseStacksWith(target, db.stock[k].definition))
    case _ => false
  }

  /** Some answer of `findFirst` makes the requested action break the singles. */
  ghost predicate MayBreakSingles(db: DB, a: Action)
    requires Valid(db)
  {
    exists b :: SameRequest(a, b) && Legal(db, b) && !SinglesOnly(Apply(db, b).items)
  }

  lemma MatchFound(items: Items, j: ItemId, matches: (ItemId, Item) -> bool)
    requires j in items && Flagged(items[j]) && matches(j, items[j])
    ensures MatchesFlagged(items, matches)
  {
  }

  /** What was picked to be stacked onto matches. */
  lemma PickedMatches(db: DB, b: Action)
    requires Legal(db, b) && StacksOnFlagged(db.items, b)
    ensures MayStackOnFlagged(db, b)
  {
    match b
    case OnItems(Acquire(s, d, _, notes, _, pick)) =>
      MatchFound(db.items, pick.value, I.StacksWith(s, d, notes));
    case OnItems(Transfer(i, _, to, _, _, pick)) =>
      MatchFound(db.items, pick.value, I.TransferStacksWith(db.items[i], i, to));
    case OnTrade(Purchase(_, k, target, _, _, pick)) =>
      MatchFound(db.items, pick.value, I.PurchaseStacksWith(target, db.stock[k].definition));
  }

  /** What matches may be picked. */
  lemma MatchPicked(db: DB, a: Action) returns (b: Action)
    requires Legal(db, a) && MayStackOnFlagged(db, a)
    ensures SameRequest(a, b) && Legal(db, b) && StacksOnFlagged(db.items, b)
  {
    match a
    case OnItems(Acquire(s, d, quantity, notes, newId, _)) =>
      var j :| j in db.items && Flagged(db.items[j]) && I.StacksWith(s, d, notes)(j, db.items[j]);
      b := OnItems(ItemAction.Acquire(s, d, quantity, notes, newId, Some(j)));
    case OnItems(Transfer(i, quantity, to, into, newId, _)) =>
      var j :| j in db.items && Flagged(db.items[j]) && I.TransferStacksWith(db.items[i], i, to)(j, db.items[j]);
      b := OnItems(ItemAction.Transfer(i, quantity, to, into, newId, Some(j)));
    case OnTrade(Purchase(h, k, target, quantity, newId, _)) =>
      var j :| j in db.items && Flagged(db.items[j]) && I.PurchaseStacksWith(target, db.stock[k].definition)(j, db.items[j]);
      b := OnTrade(TradeAction.Purchase(h, k, target, quantity, newId, Some(j)));
  }

  lemma SameRequestMatches(db: DB, a: Action, b: Action)
    requires SameRequest(a, b) && MayStackOnFlagged(db, b)
    ensures MayStackOnFlagged(db, a)
  {
  }

  lemma BreakingMatches(db: DB, a: Action)
    requires Valid(db) && Legal(db, a) && SinglesOnly(db.items) && MayBreakSingles(db, a)
    ensures MayStackOnFlagged(db, a)
  {
    var b :| SameRequest(a, b) && Legal(db, b) && !SinglesOnly(Apply(db, b).items);
    SinglesKept(db, b);
    PickedMatches(db, b);
    SameRequestMatches(db, a, b);
  }

  lemma MatchBreaks(db: DB, a: Action)
    requires Valid(db) && Legal(db, a) && SinglesOnly(db.items) && MayStackOnFlagged(db, a)
    ensures MayBreakSingles(db, a)
  {
    var b := MatchPicked(db, a);
    SinglesKept(db, b);
  }

  /**
   * A legal request may leave a flagged row of several units exactly if some flagged row matches its
   * stacking key: the stash, definition and notes acquired or moved as a whole, or the plain rows of
   * the stash and definition bought.
   */
  lemma SinglesBreakable(db: DB, a: Action)
    requires Valid(db) && Legal(db, a) && SinglesOnly(db.items)
    ensures MayBreakSingles(db, a) <==> MayStackOnFlagged(db, a)
  {
    if MayBreakSingles(db, a) {
      BreakingMatches(db, a);
    }
    if MayStackOnFlagged(db, a) {
      MatchBreaks(db, a);
    }
  }

  // ---------------------------------------------------------------- a second sword on the equipped one

  const INVENTORY: StashId := 4
  const SWORD: ItemId := 10

  /** An owner whose character has one equipped sword. */
  function Armed(): DB {
    DB(map[7 := Party(3, None, 2, 1.0, false)],
       map[Seat(3, 7, Dm) := Membership(None, 0, None), Seat(3, 7, Player) := Membership(Some(8), 0, None)],
       map[8 := Character(7, 3, INVENTORY)],
       map[2 := Stash(LootScope, false, None, Some(7)), INVENTORY := Stash(CharacterScope, true, Some(8), None)],
       map[2 := NO_COINS, INVENTORY := NO_COINS],
       map[SWORD := Item(6, INVENTORY, None, 1, true, false, None, None, I.PLAIN)],
       map[], map[], map[6 := Definition(P.PHB, None)])
  }

  const ANOTHER := ItemAction.Acquire(INVENTORY, 6, 1, None, 20, Some(SWORD))

  lemma ArmedMembers()
    ensures var db := Armed();
      PartiesOk(db.parties, db.seats) && SeatsOk(db.seats) && LinksOk(db.parties, db.seats, db.characters)
  {
    var db := Armed();
    assert Active(db.seats, Seat(3, 7, Dm));
    assert Governed(db.parties[7], 7, db.seats);
    assert CharacterLinked(db.parties, db.seats, 8, db.characters[8]);
    assert forall seat :: seat in db.seats ==> RowLinked(db.parties, db.characters, seat, db.seats[seat]);
  }

  lemma ArmedRows()
    ensures var db := Armed();
      && StashesOk(db.parties, db.characters, db.stashes) && HoldingsOk(db.stashes, db.holdings)
      && ItemsOk(db.stashes, db.catalog, db.items) && ShopsOk(db.parties, db.shops, db.stock) && CatalogOk(db.catalog)
  {
    var db := Armed();
    assert StashOk(db.parties, db.characters, 2, db.stashes[2]);
    assert StashOk(db.parties, db.characters, INVENTORY, db.stashes[INVENTORY]);
  }

  /** Acquiring another leaves an equipped row of two. */
  lemma SecondSword()
    ensures Valid(Armed()) && SinglesOnly(Armed().items) && LegalOnItems(Armed(), ANOTHER)
    ensures var items := ApplyItems(Armed(), ANOTHER); items[SWORD].equipped && items[SWORD].quantity == 2 && !SinglesOnly(items)
  {
    ArmedMembers();
    ArmedRows();
    var db := Armed();
    assert PartyOf(db.stashes, db.characters, INVENTORY) == Some(7);
    assert I.StacksWith(INVENTORY, 6, None)(SWORD, db.items[SWORD]);
    var items := ApplyItems(db, ANOTHER);
    assert Flagged(items[SWORD]);
  }
}
