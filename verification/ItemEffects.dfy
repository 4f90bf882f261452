/** What the item actions write, column by column, told without their steps. */
module ItemEffects {
  import opened Effects
  import opened Ledger
  import opened Tables
  import opened Wrappers
  import I = ItemRows

  /** A row that units of the definition with these notes may be added to in the stash. */
  predicate HasKey(row: Item, s: StashId, d: DefId, notes: Option<string>) {
    row.stash == s && row.definition == d && row.notes == notes
  }

  ghost predicate SomeKey(items: Items, s: StashId, d: DefId, notes: Option<string>) {
    exists j :: j in items && HasKey(items[j], s, d, notes)
  }

  /** Row `j` has `n` units more than before and is otherwise as it was. */
  predicate Gained(before: Items, after: Items, j: ItemId, n: int) {
    j in before && j in after && after[j] == before[j].(quantity := before[j].quantity + n)
  }

  lemma KeyFound(items: Items, j: ItemId, s: StashId, d: DefId, notes: Option<string>)
    requires j in items && HasKey(items[j], s, d, notes)
    ensures SomeKey(items, s, d, notes)
  {
  }

  // ---------------------------------------------------------------- acquiring and buying

  /**
   * Acquired units go on a row with the same stash, definition and notes if there is one, and otherwise
   * on a new row, outside any container, identified and without flags and charges.
   */
  lemma Acquired(db: DB, a: ItemAction)
    requires a.Acquire? && LegalOnItems(db, a)
    ensures var after := ApplyItems(db, a);
      && (a.pick.Some? <==> SomeKey(db.items, a.s, a.d, a.notes))
      && (a.pick.Some? ==> (
            && Gained(db.items, after, a.pick.value, a.quantity)
            && HasKey(db.items[a.pick.value], a.s, a.d, a.notes) && a.newId !in after))
      && (a.pick.None? ==> (
            && a.newId in after
            && after[a.newId] == Item(a.d, a.s, None, a.quantity, false, false, None, a.notes, Details(true, None, None, None))))
  {
    var matches := I.StacksWith(a.s, a.d, a.notes);
    if a.pick.Some? {
      assert matches(a.pick.value, db.items[a.pick.value]);
      KeyFound(db.items, a.pick.value, a.s, a.d, a.notes);
    } else {
      forall j | j in db.items ensures !HasKey(db.items[j], a.s, a.d, a.notes) {
        assert !matches(j, db.items[j]);
      }
    }
  }

  /** A row bought units may be added to: of that definition, without notes and in no container. */
  predicate Plain(row: Item, s: StashId, d: DefId) {
    HasKey(row, s, d, None) && row.container.None?
  }

  /** Bought units go on such a row in the buyer's stash if there is one, and otherwise on a new one. */
  lemma Bought(db: DB, a: TradeAction, j: ItemId)
    requires a.Purchase? && LegalOnTrade(db, a)
    ensures var after, d := ApplyTrade(db, a).items, db.stock[a.k].definition;
      && (a.pick.None? && j in db.items ==> !Plain(db.items[j], a.target, d))
      && (a.pick.Some? ==> (
            && Gained(db.items, after, a.pick.value, a.quantity)
            && Plain(db.items[a.pick.value], a.target, d) && a.newId !in after))
      && (a.pick.None? ==> (
            && a.newId in after
            && after[a.newId] == Item(d, a.target, None, a.quantity, false, false, None, None, Details(true, None, None, None))))
      && (j != a.newId && a.pick != Some(j) ==> (j in after <==> j in db.items) && (j in after ==> after[j] == db.items[j]))
  {
    var matches := I.PurchaseStacksWith(a.target, db.stock[a.k].definition);
    if a.pick.Some? {
      assert matches(a.pick.value, db.items[a.pick.value]);
    } else if j in db.items {
      assert !matches(j, db.items[j]);
    }
  }

  /** Sold units come off the row sold from, which goes with its last one; every other row stays. */
  lemma Sold(db: DB, a: TradeAction, j: ItemId)
    requires Valid(db) && a.Sale? && LegalOnTrade(db, a)
    ensures var after, row := ApplyTrade(db, a).items, db.items[a.i];
      && (a.i in after <==> a.quantity < row.quantity) && (a.i in after ==> Gained(db.items, after, a.i, -a.quantity))
      && (j != a.i ==> (j in after <==> j in db.items) && (j in after ==> after[j] == db.items[j]))
  {
  }

  /** Consumed units come off the row, which goes with its last one. */
  lemma Consumed(db: DB, a: ItemAction)
    requires a.Consume? && LegalOnItems(db, a)
    ensures var after := ApplyItems(db, a);
      && (a.i in after <==> a.quantity < db.items[a.i].quantity)
      && (a.i in after ==> Gained(db.items, after, a.i, -a.quantity))
  {
  }

  // ---------------------------------------------------------------- moving and splitting

  /**
   * A row moved as a whole is added to another row of the destination with its definition and notes if
   * there is one. Otherwise it goes there itself, without flags, and stays in its container unless
   * told where to go.
   */
  lemma MovedWhole(db: DB, a: ItemAction, j: ItemId)
    requires a.Transfer? && LegalOnItems(db, a) && a.quantity >= db.items[a.i].quantity
    ensures var after, row := ApplyItems(db, a), db.items[a.i];
      && (a.pick.None? && j in db.items && j != a.i ==> !HasKey(db.items[j], a.to, row.definition, row.notes))
      && (a.pick.Some? ==> (
            && a.i !in after && a.pick.value != a.i && Gained(db.items, after, a.pick.value, row.quantity)
            && HasKey(db.items[a.pick.value], a.to, row.definition, row.notes)))
      && (a.pick.None? ==> (
            && a.i in after && after[a.i].stash == a.to && after[a.i].quantity == row.quantity && !Flagged(after[a.i])
            && after[a.i].container == (if a.into.Some? then a.into.value else row.container)))
      && after.Keys <= db.items.Keys
  {
    var matches := I.TransferStacksWith(db.items[a.i], a.i, a.to);
    if a.pick.Some? {
      assert matches(a.pick.value, db.items[a.pick.value]);
    } else if j in db.items {
      assert !matches(j, db.items[j]);
    }
  }

  /** Fewer units go to a new row at the destination, without flags and in no container unless told. */
  lemma MovedPart(db: DB, a: ItemAction)
    requires a.Transfer? && LegalOnItems(db, a) && a.quantity < db.items[a.i].quantity
    ensures var after := ApplyItems(db, a);
      && Gained(db.items, after, a.i, -a.quantity)
      && a.newId in after && after[a.newId].stash == a.to && after[a.newId].quantity == a.quantity && !Flagged(after[a.newId])
      && after[a.newId].container == (if a.into.Some? then a.into.value else None)
  {
  }

  /** Split-off units stay where they are, without flags. */
  lemma SplitApart(db: DB, a: ItemAction)
    requires a.Split? && LegalOnItems(db, a)
    ensures var after, row := ApplyItems(db, a), db.items[a.i];
      && Gained(db.items, after, a.i, -a.quantity)
      && a.newId in after && after[a.newId].quantity == a.quantity && !Flagged(after[a.newId])
      && after[a.newId].stash == row.stash && after[a.newId].container == row.container
  {
  }

  // ---------------------------------------------------------------- flags

  /** The row that carries the flag afterwards: the row itself, or the unit split off a stack. */
  function Carrier(db: DB, i: ItemId, newId: ItemId): ItemId
    requires i in db.items
  {
    if db.items[i].quantity > 1 then newId else i
  }

  /**
   * Equipping sets `equipped` and attuning `attuned`, and each leaves the other flag of a single unit as
   * it was. A stack loses a unit to a new row in its place that carries that one flag.
   */
  lemma FlagSet(db: DB, a: ItemAction)
    requires Valid(db) && a.SetFlag? && LegalOnItems(db, a)
    ensures var after, row, c := ApplyItems(db, a), db.items[a.i], Carrier(db, a.i, a.newId);
      && c in after && after[c].quantity == 1 && after[c].stash == row.stash && after[c].container == row.container
      && (a.flag == I.Equipped ==> after[c].equipped && after[c].attuned == (row.attuned && row.quantity == 1))
      && (a.flag == I.Attuned ==> after[c].attuned && after[c].equipped == (row.equipped && row.quantity == 1))
      && (row.quantity > 1 ==> Gained(db.items, after, a.i, -1))
  {
    assert ItemOk(db.stashes, db.catalog, db.items[a.i]);
  }

  /** Without this flag the row has no flag and no charges. */
  predicate PlainWithout(row: Item, flag: I.Flag) {
    && row.charges.None?
    && (if flag == I.Equipped then !row.attuned else !row.equipped)
  }

  /** A row another may be merged into: in the same place, of the same definition and notes, without flags and charges. */
  predicate Twin(other: Item, row: Item) {
    && HasKey(other, row.stash, row.definition, row.notes) && other.container == row.container
    && !Flagged(other) && other.charges.None?
  }

  /**
   * Unequipping clears `equipped` and unattuning `attuned`, and neither the other flag. If the row has
   * then neither flags nor charges and another such row stands in the same place with the same
   * definition and notes, its units are added to that one and it goes; otherwise it stays as it is.
   */
  lemma FlagCleared(db: DB, a: ItemAction, j: ItemId)
    requires a.ClearFlag? && LegalOnItems(db, a)
    ensures var after, row := ApplyItems(db, a), db.items[a.i];
      && (a.i in after <==> a.pick.None?)
      && (a.pick.None? && PlainWithout(row, a.flag) && j in db.items && j != a.i ==> !Twin(db.items[j], row))
      && (a.pick.Some? ==> (
            && PlainWithout(row, a.flag) && a.pick.value != a.i
            && Gained(db.items, after, a.pick.value, row.quantity) && Twin(db.items[a.pick.value], row)))
      && (a.pick.None? ==> (
            && after[a.i].quantity == row.quantity && after[a.i].stash == row.stash && after[a.i].container == row.container
            && (a.flag == I.Equipped ==> !after[a.i].equipped && after[a.i].attuned == row.attuned)
            && (a.flag == I.Attuned ==> !after[a.i].attuned && after[a.i].equipped == row.equipped)))
  {
    var row := db.items[a.i];
    var patched := I.WithFlag(row, a.flag, false);
    assert PlainWithout(row, a.flag) <==> I.Mundane(patched);
    if a.pick.Some? {
      RestackTwin(row, patched, a.i, a.pick.value, db.items[a.pick.value]);
    } else if PlainWithout(row, a.flag) && j in db.items {
      assert I.FindFirst(db.items, a.pick, I.RestacksWith(patched, a.i));
      RestackTwin(row, patched, a.i, j, db.items[j]);
    }
  }

  lemma RestackTwin(row: Item, patched: Item, i: ItemId, j: ItemId, other: Item)
    requires HasKey(patched, row.stash, row.definition, row.notes) && patched.container == row.container
    ensures I.RestacksWith(patched, i)(j, other) <==> j != i && Twin(other, row)
  {
    assert I.Mundane(other) == (!Flagged(other) && other.charges.None?);
    assert I.RestacksWith(patched, i)(j, other)
        == (j != i && HasKey(other, patched.stash, patched.definition, patched.notes) && other.container == patched.container && I.Mundane(other));
  }

  /** Editing writes charges, notes and details and leaves the rest. */
  lemma Edited(db: DB, a: ItemAction)
    requires a.EditItem? && LegalOnItems(db, a)
    ensures var after, row := ApplyItems(db, a), db.items[a.i];
      a.i in after && after[a.i] == Item(row.definition, row.stash, row.container, row.quantity, row.equipped, row.attuned,
                                         a.charges, a.notes, a.details)
  {
  }
}
