/**
 * The persistor (apps/server/src/sync/persistor.ts): one method per action, writing the tables in
 * place in the order the server does, against the database's own constraints. A constraint that is
 * violated, a row that is missing and an explicit throw all end the method; the enclosing
 * transaction then puts every table back (as `LeavePartyForUser` shows). P2002, P2003 and P2025
 * are the database client's codes for a taken key, a missing reference and a missing row.
 */
module Persistor {
  import opened Currency
  import opened Ledger
  import opened LedgerSafe
  import opened Members
  import opened MembersSafe
  import opened Tables
  import opened Wrappers
  import C = CoinRows
  import I = ItemRows
  import P = Pricing
  import T = Trade

  class Store {
    var parties: Parties
    var seats: Seats
    var characters: Characters
    var stashes: Stashes
    var holdings: Holdings
    var items: Items
    var shops: Shops
    var stock: Stocks
    var catalog: Catalog

    function Db(): DB
      reads this
    {
      DB(parties, seats, characters, stashes, holdings, items, shops, stock, catalog)
    }

    constructor (seeded: Catalog)
      ensures Db() == Fresh(seeded)
    {
      parties, seats, characters, stashes, holdings := map[], map[], map[], map[], map[];
      items, shops, stock, catalog := map[], map[], map[], seeded;
    }

    /** What rolling a transaction back does. */
    method Restore(before: DB)
      modifies this
      ensures Db() == before
    {
      parties, seats, characters, stashes := before.parties, before.seats, before.characters, before.stashes;
      holdings, items := before.holdings, before.items;
      shops, stock, catalog := before.shops, before.stock, before.catalog;
    }

    // -------------------------------------------------------------- item rows

    /** Inserts a row; its key must be new, its constraints hold, and its container not be nested. */
    method CreateItem(i: ItemId, row: Item) returns (r: Outcome)
      modifies this`items
      ensures r.Pass? <==> i !in old(items) && ItemOk(stashes, catalog, row) && I.Shallow(old(items), row.container)
      ensures r.Pass? ==> items == old(items)[i := row]
      ensures r.Thrown? ==> items == old(items)
    {
      r := Pass;
      :- Need(i !in items, "P2002");
      :- Need(ItemOk(stashes, catalog, row), "item constraint");
      :- Need(I.Shallow(items, row.container), "ItemInstance_container_depth_exceeded");
      items := items[i := row];
    }

    /** An update that does not name the container. */
    method UpdateItem(i: ItemId, row: Item) returns (r: Outcome)
      requires i in items ==> row.container == items[i].container
      modifies this`items
      ensures r.Pass? <==> i in old(items) && ItemOk(stashes, catalog, row)
      ensures r.Pass? ==> items == old(items)[i := row]
      ensures r.Thrown? ==> items == old(items)
    {
      r := Pass;
      :- Need(i in items, "P2025");
      :- Need(ItemOk(stashes, catalog, row), "item constraint");
      items := items[i := row];
    }

    /** An update that names the container, whether it changes or not. */
    method PackItem(i: ItemId, row: Item) returns (r: Outcome)
      modifies this`items
      ensures r.Pass? <==> i in old(items) && ItemOk(stashes, catalog, row) && I.Shallow(old(items), row.container)
      ensures r.Pass? ==> items == old(items)[i := row]
      ensures r.Thrown? ==> items == old(items)
    {
      r := Pass;
      :- Need(i in items, "P2025");
      :- Need(ItemOk(stashes, catalog, row), "item constraint");
      :- Need(I.Shallow(items, row.container), "ItemInstance_container_depth_exceeded");
      items := items[i := row];
    }

    method FindFirst(matches: (ItemId, Item) -> bool) returns (pick: Option<ItemId>)
      ensures I.FindFirst(items, pick, matches)
    {
      if i :| i in items && matches(i, items[i]) {
        pick := Some(i);
      } else {
        pick := None;
      }
    }

    lemma RowOk(i: ItemId)
      requires i in items
      ensures ItemsOk(stashes, catalog, items) ==> ItemOk(stashes, catalog, items[i])
    {
    }

    method Acquire(s: StashId, d: DefId, quantity: int, notes: Option<string>, newId: ItemId)
      returns (r: Outcome, pick: Option<ItemId>)
      modifies this`items
      ensures I.FindFirst(old(items), pick, I.StacksWith(s, d, notes))
      ensures r.Pass? ==> items == I.Stack(old(items), pick, newId, I.NewRow(s, d, quantity, notes))
      ensures r.Thrown? ==> items == old(items)
      ensures Valid(old(Db())) && CanAcquire(old(Db()), s, d, quantity, notes, newId, pick) ==> r.Pass?
    {
      pick := FindFirst(I.StacksWith(s, d, notes));
      if pick.Some? {
        var existing := items[pick.value];
        RowOk(pick.value);
        :- UpdateItem(pick.value, existing.(quantity := existing.quantity + quantity));
        return Pass, pick;
      }
      :- CreateItem(newId, Item(d, s, None, quantity, false, false, None, notes, Details(true, None, None, None)));
      r := Pass;
    }

    method Consume(i: ItemId, quantity: int) returns (r: Outcome)
      requires quantity >= 1
      modifies this`items
      ensures r.Pass? ==> i in old(items) && items == I.Consume(old(items), i, quantity)
      ensures r.Thrown? ==> items == old(items)
      ensures Valid(old(Db())) && i in old(items) ==> r.Pass?
    {
      r := Pass;
      :- Need(i in items, "P2025");
      RowOk(i);
      var next := items[i].quantity - quantity;
      if next <= 0 {
        items := items - {i};
      } else {
        :- UpdateItem(i, items[i].(quantity := next));
      }
    }

    method Transfer(i: ItemId, quantity: int, to: StashId, into: I.ContainerChange, newId: ItemId)
      returns (r: Outcome, pick: Option<ItemId>)
      requires quantity >= 1
      modifies this`items
      ensures i in old(items) ==>
        if I.MovesAll(old(items), i, quantity) then I.FindFirst(old(items), pick, I.TransferStacksWith(old(items)[i], i, to))
        else pick.None?
      ensures r.Pass? ==> i in old(items) && items == I.Transfer(old(items), i, quantity, to, into, newId, pick)
      ensures r.Pass? ==> pick.Some? || (to in stashes && (into.None? || I.Shallow(old(items), into.value)))
      ensures r.Pass? && !I.MovesAll(old(items), i, quantity) ==> newId !in old(items)
      ensures Valid(old(Db())) && CanMove(old(Db()), i, quantity, to, newId, pick) ==>
        (r.Pass? <==> pick.Some? || into.None? || I.Shallow(old(items), into.value))
    {
      pick := None;
      :- Need(i in items, "P2025");
      var source := items[i];
      RowOk(i);
      if quantity >= source.quantity {
        pick := FindFirst(I.TransferStacksWith(source, i, to));
        if pick.Some? {
          r := MergeInto(i, pick.value);
        } else {
          var moved := source.(stash := to, equipped := false, attuned := false);
          if into.Some? {
            r := PackItem(i, moved.(container := into.value));
          } else {
            r := UpdateItem(i, moved);
          }
        }
        return r, pick;
      }
      var container := if into.Some? then into.value else None;
      r := BreakOff(i, quantity, newId, Item(source.definition, to, container, quantity, false, false,
                                             source.charges, source.notes, source.details));
    }

    /** Adds a row's quantity to another and deletes it. */
    method MergeInto(i: ItemId, j: ItemId) returns (r: Outcome)
      requires i in items && j in items && i != j
      modifies this`items
      ensures r.Pass? ==> items == I.Grow(old(items), j, old(items)[i].quantity) - {i}
      ensures ItemsOk(stashes, catalog, old(items)) ==> r.Pass?
    {
      r := Pass;
      var n := items[i].quantity;
      RowOk(i);
      RowOk(j);
      :- UpdateItem(j, items[j].(quantity := items[j].quantity + n));
      items := items - {i};
    }

    /** Takes units off a row and inserts them as another. */
    method BreakOff(i: ItemId, n: int, newId: ItemId, row: Item) returns (r: Outcome)
      requires i in items
      modifies this`items
      ensures r.Pass? ==> items == I.Grow(old(items), i, -n)[newId := row]
      ensures r.Pass? <==> (
        && ItemOk(stashes, catalog, old(items)[i].(quantity := old(items)[i].quantity - n))
        && newId !in old(items) && ItemOk(stashes, catalog, row) && I.Shallow(old(items), row.container))
    {
      r := Pass;
      RowOk(i);
      :- UpdateItem(i, items[i].(quantity := items[i].quantity - n));
      r := CreateItem(newId, row);
    }

    method Split(i: ItemId, quantity: int, newId: ItemId) returns (r: Outcome)
      modifies this`items
      ensures r.Pass? ==> i in old(items) && items == I.Split(old(items), i, quantity, newId)
      ensures r.Pass? ==> 1 <= quantity < old(items)[i].quantity && newId !in old(items) && I.Shallow(old(items), old(items)[i].container)
      ensures Valid(old(Db())) && LegalOnItems(old(Db()), ItemAction.Split(i, quantity, newId)) ==>
        (r.Pass? <==> I.Shallow(old(items), old(items)[i].container))
    {
      r := Pass;
      :- Need(i in items, "P2025");
      var source := items[i];
      RowOk(i);
      r := BreakOff(i, quantity, newId, Item(source.definition, source.stash, source.container, quantity, false, false,
                                             source.charges, source.notes, source.details));
    }

    /** Equip and attune: the flag goes on the row itself, or on a unit split off it. */
    method SetFlag(i: ItemId, flag: I.Flag, newId: Option<ItemId>) returns (r: Outcome)
      modifies this`items
      ensures r.Pass? ==> (
        && i in old(items) && (old(items)[i].quantity > 1 ==> newId.Some?)
        && items == I.SetFlag(old(items), i, flag, if newId.Some? then newId.value else i))
      ensures Valid(old(Db())) && newId.Some? && CanSetFlag(old(Db()), i, newId.value) ==>
        (r.Pass? <==> (old(items)[i].quantity > 1 ==> I.Shallow(old(items), old(items)[i].container)))
    {
      r := Pass;
      :- Need(i in items, "P2025");
      var source := items[i];
      RowOk(i);
      if source.quantity <= 1 {
        r := UpdateItem(i, if flag == I.Equipped then source.(equipped := true) else source.(attuned := true));
        return;
      }
      :- Need(newId.Some?, "payload must include newItemInstanceId");
      r := BreakOff(i, 1, newId.value, Item(source.definition, source.stash, source.container, 1, flag == I.Equipped, flag == I.Attuned,
                                            source.charges, source.notes, source.details));
    }

    /** Unequip and unattune. */
    method ClearFlag(i: ItemId, flag: I.Flag) returns (r: Outcome, pick: Option<ItemId>)
      modifies this`items
      ensures i in old(items) ==> CanClearFlag(old(items), i, flag, pick)
      ensures r.Pass? ==> (
        && i in old(items) && (pick.Some? ==> pick.value in old(items) && pick.value != i)
        && items == I.ClearFlag(old(items), i, flag, pick))
      ensures Valid(old(Db())) && i in old(items) ==> r.Pass?
    {
      pick := None;
      :- Need(i in items, "P2025");
      r, pick := RestackOrPatch(i, if flag == I.Equipped then items[i].(equipped := false) else items[i].(attuned := false));
    }

    method RestackOrPatch(i: ItemId, patched: Item) returns (r: Outcome, pick: Option<ItemId>)
      requires i in items && patched.quantity == items[i].quantity && patched.container == items[i].container
      requires Valid(Db()) ==> ItemOk(stashes, catalog, patched)
      modifies this`items
      ensures I.RestackPick(old(items), i, patched, pick)
      ensures pick.Some? ==> pick.value in old(items) && pick.value != i
      ensures r.Pass? ==> items == I.RestackOrPatch(old(items), i, patched, pick)
      ensures Valid(old(Db())) ==> r.Pass?
    {
      pick := None;
      if !(!patched.equipped && !patched.attuned && patched.charges.None?) {
        :- UpdateItem(i, patched);
        return Pass, None;
      }
      pick := FindFirst(I.RestacksWith(patched, i));
      if pick.None? {
        :- UpdateItem(i, patched);
        return Pass, None;
      }
      assert I.RestacksWith(patched, i)(pick.value, items[pick.value]);
      var target := items[pick.value];
      RowOk(pick.value);
      items := items - {i};
      :- UpdateItem(pick.value, target.(quantity := target.quantity + patched.quantity));
      r := Pass;
    }

    // -------------------------------------------------------------- holdings

    method UpdateHolding(s: StashId, coins: Coins) returns (r: Outcome)
      modifies this`holdings
      ensures r.Pass? <==> s in old(holdings) && coins.NonNegative()
      ensures r.Pass? ==> holdings == old(holdings)[s := coins]
      ensures r.Thrown? ==> holdings == old(holdings)
    {
      r := Pass;
      :- Need(s in holdings, "P2025");
      :- Need(coins.NonNegative(), "holding constraint");
      holdings := holdings[s := coins];
    }

    method CurrencyChange(s: StashId, delta: Coins) returns (r: Outcome)
      modifies this`holdings
      ensures r.Pass? <==> s in old(holdings) && Add(old(holdings)[s], delta).NonNegative()
      ensures r.Pass? ==> holdings == C.Deposit(old(holdings), s, delta)
    {
      r := Pass;
      :- Need(s in holdings, "P2025");
      r := UpdateHolding(s, Add(holdings[s], delta));
    }

    method CurrencyTransfer(from: StashId, to: StashId, delta: Coins) returns (r: Outcome)
      modifies this`holdings
      ensures r.Pass? ==> from in old(holdings) && to in old(holdings) && holdings == C.CurrencyTransfer(old(holdings), from, to, delta)
      ensures r.Pass? <==> (
        && from in old(holdings) && to in old(holdings) && Minus(old(holdings)[from], delta).NonNegative()
        && C.CurrencyTransfer(old(holdings), from, to, delta)[to].NonNegative())
      ensures Valid(old(Db())) && CanMoveCoins(old(Db()), from, to, delta) ==> r.Pass?
    {
      r := Pass;
      :- Need(from in holdings, "P2025");
      :- UpdateHolding(from, Minus(holdings[from], delta));
      r := CurrencyChange(to, delta);
    }

    /** The pool keeps the remainder, and each recipient named, however often, is credited a share. */
    method SplitEvenly(pool: StashId, recipients: seq<CharId>) returns (r: Outcome)
      modifies this`holdings
      ensures r.Pass? ==> (
        && pool in old(holdings) && recipients != [] && Housed(characters, old(holdings), recipients)
        && holdings == C.SplitAmong(old(holdings), pool, Inventories(characters, recipients)))
      ensures Valid(old(Db())) && CanSplitEvenly(old(Db()), pool, recipients) ==> r.Pass?
    {
      r := Pass;
      :- Need(pool in holdings, "P2025");
      var division := Currency.SplitEvenly(holdings[pool], |recipients|);
      if division.Err? {
        return Thrown(division.error);
      }
      if Valid(Db()) && CanSplitEvenly(Db(), pool, recipients) {
        C.SplitNonNegative(holdings[pool], |recipients|);
        RecipientsHoused(Db(), pool, recipients);
      }
      :- UpdateHolding(pool, division.value.remainder);
      r := CreditAll(recipients, division.value.share);
    }

    method CreditAll(recipients: seq<CharId>, share: Coins) returns (r: Outcome)
      modifies this`holdings
      ensures r.Pass? ==> (
        && Housed(characters, old(holdings), recipients)
        && holdings == C.Credit(old(holdings), Inventories(characters, recipients), share))
      ensures Housed(characters, old(holdings), recipients) && C.Solvent(old(holdings)) && share.NonNegative() ==> r.Pass?
    {
      ghost var start := holdings;
      ghost var sound := Housed(characters, start, recipients) && C.Solvent(start) && share.NonNegative();
      for n := 0 to |recipients|
        invariant Housed(characters, start, recipients[..n])
        invariant holdings == C.Credit(start, Inventories(characters, recipients[..n]), share)
        invariant sound ==> C.Solvent(holdings)
      {
        var c := recipients[n];
        :- Need(c in characters, "split-evenly: character not found in DB");
        ghost var credited := holdings;
        :- CurrencyChange(characters[c].inventory, share);
        NextRecipient(characters, start, recipients, n);
        assert C.Credit(start, Inventories(characters, recipients[..n + 1]), share) == C.Deposit(credited, characters[c].inventory, share);
      }
      assert recipients[..|recipients|] == recipients;
      r := Pass;
    }

    // -------------------------------------------------------------- stashes

    /** At most one Inventory a character, one Recovered Loot a party; owners and parties exist. */
    predicate Fits(stash: Stash)
      reads this
    {
      && (stash.owner.Some? ==> stash.owner.value in characters)
      && (stash.party.Some? ==> stash.party.value in parties)
      && (stash.carried ==> forall t :: t in stashes ==> !(stashes[t].carried && stashes[t].owner == stash.owner))
      && (stash.scope == LootScope ==> forall t :: t in stashes ==> !(stashes[t].scope == LootScope && stashes[t].party == stash.party))
    }

    method InsertStash(s: StashId, stash: Stash) returns (r: Outcome)
      modifies this`stashes
      ensures r.Pass? <==> s !in old(stashes) && old(Fits(stash))
      ensures r.Pass? ==> stashes == old(stashes)[s := stash]
    {
      r := Pass;
      :- Need(s !in stashes, "P2002");
      :- Need(Fits(stash), "stash constraint");
      stashes := stashes[s := stash];
    }

    /** An empty holding for a stash. */
    method InsertHolding(s: StashId) returns (r: Outcome)
      modifies this`holdings
      ensures r.Pass? <==> s !in old(holdings) && s in stashes
      ensures r.Pass? ==> holdings == old(holdings)[s := NO_COINS]
    {
      r := Pass;
      :- Need(s !in holdings, "P2002");
      :- Need(s in stashes, "P2003");
      holdings := holdings[s := NO_COINS];
    }

    /** A new stash with an empty holding. */
    method CreateStashRow(s: StashId, stash: Stash) returns (r: Outcome)
      modifies this`stashes, this`holdings
      ensures r.Pass? <==> s !in old(stashes) && s !in old(holdings) && old(Fits(stash))
      ensures r.Pass? ==> stashes == old(stashes)[s := stash] && holdings == old(holdings)[s := NO_COINS]
    {
      r := Pass;
      :- InsertStash(s, stash);
      r := InsertHolding(s);
    }

    method CreateStash(c: CharId, s: StashId) returns (r: Outcome)
      modifies this`stashes, this`holdings
      ensures r.Pass? ==> Db() == Members.CreateStash(old(Db()), c, s)
      ensures r.Pass? <==> s !in old(stashes) && s !in old(holdings) && c in characters
      ensures Valid(old(Db())) && CanCreateStash(old(Db()), c, s) ==> r.Pass?
    {
      r := CreateStashRow(s, Stash(CharacterScope, false, Some(c), None));
    }

    /** Dropping stashes drops their holdings and whatever rows are still in them. */
    method DropStashes(from: set<StashId>)
      modifies this`stashes, this`holdings, this`items
      ensures stashes == old(stashes) - from && holdings == old(holdings) - from
      ensures items == Outside(old(items), from)
    {
      stashes := stashes - from;
      holdings := holdings - from;
      items := Outside(items, from);
    }

    method FindLoot(p: PartyId) returns (r: Outcome, loot: StashId)
      ensures r.Pass? ==> loot in stashes && stashes[loot].party == Some(p) && stashes[loot].scope == LootScope
      ensures Valid(Db()) && p in parties ==> r.Pass? && loot == parties[p].loot
    {
      if Valid(Db()) && p in parties {
        OnlyLoot(Db(), p);
      }
      if s :| s in stashes && stashes[s].party == Some(p) && stashes[s].scope == LootScope {
        return Pass, s;
      }
      r, loot := Thrown("P2025"), 0;
    }

    /** Adds up what the given stashes hold. */
    method AddUp(from: set<StashId>, ghost total: set<StashId> -> Coins) returns (sum: Coins)
      requires C.Totals(holdings, total)
      ensures sum == total(from)
    {
      sum := NO_COINS;
      var left := from;
      while left != {}
        invariant total(from) == Add(sum, total(left))
        decreases |left|
      {
        var s := Next(left);
        C.TotalStep(holdings, total, left, s);
        if s in holdings {
          sum := Add(sum, holdings[s]);
        }
        left := left - {s};
      }
    }

    method Aggregate(from: set<StashId>) returns (sum: Coins)
      ensures sum == C.Gathered(holdings, from)
    {
      C.GatheredTotals(holdings);
      sum := AddUp(from, C.Gatherer(holdings));
    }

    /** Re-points the rows of the given stashes and rolls their coins into another holding. */
    method MoveContents(from: set<StashId>, to: StashId) returns (r: Outcome)
      modifies this`items, this`holdings
      ensures to in old(holdings) && to !in from && C.Solvent(old(holdings)) ==> r.Pass?
      ensures r.Pass? && to in old(holdings) ==> (
        && items == I.Sweep(old(items), from, to)
        && holdings == C.Deposit(old(holdings), to, C.Gathered(old(holdings), from)))
    {
      items := I.Sweep(items, from, to);
      var sum := Aggregate(from);
      ghost var solvent := to in holdings && to !in from && C.Solvent(holdings);
      if solvent {
        C.SweepSolvent(holdings, from, to);
        assert C.Sweep(holdings, from, to)[to] == Add(holdings[to], sum);
      }
      if sum != NO_COINS {
        :- CurrencyChange(to, sum);
      }
      r := Pass;
    }

    method DeleteStash(s: StashId) returns (r: Outcome)
      modifies this`items, this`holdings, this`stashes
      ensures r.Pass? ==> s in old(stashes) && old(stashes)[s].scope == CharacterScope && !old(stashes)[s].carried
      ensures r.Pass? ==> exists loot ::
        LootFor(old(Db()), s, loot) && (loot in old(holdings) ==> Db() == SweepStashes(old(Db()), {s}, loot))
      ensures Valid(old(Db())) && CanDeleteStash(old(Db()), s) ==> r.Pass? && Db() == Members.DeleteStash(old(Db()), s)
    {
      if Valid(Db()) && CanDeleteStash(Db(), s) {
        DeleteStashSweepable(Db(), s);
      }
      var loot :- LocateLoot(s);
      r := EmptyAndDrop(s, loot);
    }

    /** The checks before deleting a stash, and where its contents are to go. */
    method LocateLoot(s: StashId) returns (r: Outcome, loot: StashId)
      ensures r.Pass? ==> Deletable(s) && LootFor(Db(), s, loot)
      ensures Valid(Db()) && CanDeleteStash(Db(), s) ==> r.Pass? && loot == LootOf(Db(), s)
    {
      loot := 0;
      :- Need(s in stashes, "P2025");
      var stash := stashes[s];
      :- Need(!(stash.scope != CharacterScope || stash.carried), "delete-stash: only character-scope, non-carried stashes can be deleted");
      assert Valid(Db()) ==> StashOk(parties, characters, s, stash);
      :- Need(stash.owner.Some? && stash.owner.value in characters, "P2025");
      r, loot := FindLoot(characters[stash.owner.value].party);
      :- Need(s in holdings, "P2025");
    }

    predicate Deletable(s: StashId)
      reads this
    {
      s in stashes && stashes[s].scope == CharacterScope && !stashes[s].carried
    }

    method EmptyAndDrop(s: StashId, loot: StashId) returns (r: Outcome)
      modifies this`items, this`holdings, this`stashes
      ensures loot in old(holdings) && loot != s && C.Solvent(old(holdings)) ==> r.Pass?
      ensures r.Pass? && loot in old(holdings) && loot != s ==> Db() == SweepStashes(old(Db()), {s}, loot)
    {
      r := Pass;
      :- MoveContents({s}, loot);
      DropStashes({s});
      if loot in old(holdings) && loot != s {
        SweptAndDropped(old(Db()), {s}, loot);
      }
    }

    // -------------------------------------------------------------- characters

    /** Dropping a character takes its stashes along; a row still naming it forbids it. */
    method DropCharacterRow(c: CharId) returns (r: Outcome)
      modifies this`characters, this`stashes, this`holdings, this`items
      ensures r.Pass? <==> c in old(characters) && Unnamed(seats, c)
      ensures r.Pass? ==> (
        var owned := StashesOf(old(stashes), c);
        && characters == old(characters) - {c}
        && stashes == old(stashes) - owned && holdings == old(holdings) - owned
        && items == Outside(old(items), owned))
    {
      r := Pass;
      :- Need(c in characters, "P2025");
      :- Need(Unnamed(seats, c), "P2003");
      characters := characters - {c};
      DropStashes(StashesOf(stashes, c));
    }

    /** The cascade shared by deleting a character, leaving and being kicked. */
    method CascadeCharacter(c: CharId) returns (r: Outcome)
      modifies this
      ensures Valid(old(Db())) && CanDeleteCharacter(old(Db()), c) ==> r.Pass? && Db() == DeleteCharacter(old(Db()), c)
      ensures r.Pass? ==> seats == Unlink(old(seats), c)
    {
      r := Pass;
      :- Need(c in characters, "P2025");
      if Valid(Db()) && CanDeleteCharacter(Db(), c) {
        Unencumbered(Db(), c);
      }
      var loot :- FindLoot(characters[c].party);
      r := DropWithContents(c, OwnedBy(stashes, c), loot);
    }

    method DropWithContents(c: CharId, owned: set<StashId>, loot: StashId) returns (r: Outcome)
      modifies this
      ensures Droppable(old(Db()), c, owned, loot) ==> (
        && r.Pass?
        && Db() == SweepStashes(old(Db()), owned, loot).(seats := Unlink(old(seats), c), characters := old(characters) - {c}))
      ensures r.Pass? ==> seats == Unlink(old(seats), c)
    {
      ghost var before := Db();
      :- EmptyAndUnlink(c, owned, loot);
      if Droppable(before, c, owned, loot) {
        SweptAndDropped(before, owned, loot);
      }
      r := DropEmptied(c, owned);
    }

    /** Moves the contents of the character's stashes and takes its name off its row. */
    method EmptyAndUnlink(c: CharId, owned: set<StashId>, loot: StashId) returns (r: Outcome)
      modifies this`items, this`holdings, this`seats
      ensures Droppable(old(Db()), c, owned, loot) ==> (
        && r.Pass? && items == I.Sweep(old(items), owned, loot)
        && holdings == C.Deposit(old(holdings), loot, C.Gathered(old(holdings), owned)))
      ensures r.Pass? ==> seats == Unlink(old(seats), c)
    {
      if owned != {} {
        :- MoveContents(owned, loot);
      }
      seats := Unlink(seats, c);
      r := Pass;
    }

    /** Drops the character, and its stashes with it or after it. */
    method DropEmptied(c: CharId, owned: set<StashId>) returns (r: Outcome)
      modifies this`characters, this`stashes, this`holdings, this`items
      ensures r.Pass? <==> c in old(characters) && Unnamed(seats, c)
      ensures r.Pass? && owned == StashesOf(old(stashes), c) && Outside(old(items), owned) == old(items) ==> (
        && characters == old(characters) - {c} && items == old(items)
        && stashes == old(stashes) - owned - owned && holdings == old(holdings) - owned - owned)
    {
      r := DropCharacterRow(c);
      if r.Pass? {
        DropStashes(owned);
      }
    }

    /** Adds a character to an existing party: its row, its Inventory, and the membership naming it. */
    method AddCharacter(u: UserId, p: PartyId, c: CharId, inventory: StashId, now: Time) returns (r: Outcome)
      modifies this`characters, this`stashes, this`holdings, this`seats
      ensures r.Pass? ==> Db() == Members.AddCharacter(old(Db()), u, p, c, inventory, now)
      ensures r.Pass? <==> RoomForCharacter(old(Db()), u, p, c, inventory)
    {
      r := Pass;
      :- CreateCharacterRow(c, Character(p, u, inventory));
      :- CreateStashRow(inventory, Stash(CharacterScope, true, Some(c), None));
      var mine := Seat(u, p, Player);
      if mine in seats && seats[mine].leftAt.None? {
        :- Need(seats[mine].character.None?, "actor already has a character in this party");
        seats := seats[mine := seats[mine].(character := Some(c))];
      } else {
        :- CreateSeat(mine, Membership(Some(c), now, None));
      }
    }

    method CreateCharacterRow(c: CharId, character: Character) returns (r: Outcome)
      modifies this`characters
      ensures r.Pass? <==> c !in old(characters) && character.party in parties
      ensures r.Pass? ==> characters == old(characters)[c := character]
    {
      r := Pass;
      :- Need(c !in characters, "P2002");
      :- Need(character.party in parties, "P2003");
      characters := characters[c := character];
    }

    // -------------------------------------------------------------- memberships

    /** Inserts a membership; a soft-deleted row under the same key stands in its way. */
    method CreateSeat(seat: Seat, row: Membership) returns (r: Outcome)
      modifies this`seats
      ensures r.Pass? <==> seat !in old(seats) && seat.party in parties && (row.character.Some? ==> row.character.value in characters)
      ensures r.Pass? ==> seats == old(seats)[seat := row]
      ensures r.Thrown? ==> seats == old(seats)
    {
      r := Pass;
      :- Need(seat !in seats, "P2002");
      :- Need(seat.party in parties && (row.character.Some? ==> row.character.value in characters), "P2003");
      seats := seats[seat := row];
    }

    /** Reactivates the row under the key, or creates it. */
    method UpsertSeat(seat: Seat, now: Time) returns (r: Outcome)
      modifies this`seats
      ensures r.Pass? <==> seat in old(seats) || seat.party in parties
      ensures r.Pass? ==> seats == old(seats)[seat := Row(None, now)]
    {
      if seat in seats {
        seats := seats[seat := seats[seat].(leftAt := None, joinedAt := now, character := None)];
      } else {
        :- CreateSeat(seat, Membership(None, now, None));
      }
      r := Pass;
    }

    method JoinParty(u: UserId, p: PartyId, now: Time) returns (r: Outcome)
      modifies this`seats
      ensures r.Pass? ==> Db() == Join(old(Db()), u, p, now)
      ensures p in parties ==> r.Pass?
    {
      r := UpsertSeat(Seat(u, p, Player), now);
    }

    method UpdateParty(p: PartyId, party: Party) returns (r: Outcome)
      modifies this`parties
      ensures r.Pass? <==> p in old(parties) && party.banker != Some(party.owner)
      ensures r.Pass? ==> parties == old(parties)[p := party]
    {
      r := Pass;
      :- Need(p in parties, "P2025");
      :- Need(party.banker != Some(party.owner), "Party_banker_not_owner_check");
      parties := parties[p := party];
    }

    method AppointBanker(p: PartyId, u: UserId) returns (r: Outcome)
      modifies this`parties
      ensures r.Pass? <==> p in old(parties) && u != old(parties)[p].owner
      ensures r.Pass? ==> Db() == SetBanker(old(Db()), p, Some(u))
    {
      r := Pass;
      :- Need(p in parties, "P2025");
      r := UpdateParty(p, parties[p].(banker := Some(u)));
    }

    method RevokeBanker(p: PartyId) returns (r: Outcome)
      modifies this`parties
      ensures r.Pass? <==> p in old(parties)
      ensures r.Pass? ==> Db() == SetBanker(old(Db()), p, None)
    {
      r := Pass;
      :- Need(p in parties, "P2025");
      r := UpdateParty(p, parties[p].(banker := None));
    }

    method DmTransfer(p: PartyId, outgoing: UserId, incoming: UserId, now: Time) returns (r: Outcome)
      modifies this`seats, this`parties
      ensures r.Pass? ==> (
        && p in old(parties) && Seat(outgoing, p, Dm) in old(seats)
        && Db() == TransferDm(old(Db()), p, outgoing, incoming, now))
      ensures Seat(outgoing, p, Dm) in old(seats) && p in old(parties) ==> r.Pass?
    {
      r := Pass;
      :- Need(Seat(outgoing, p, Dm) in seats, "P2025");
      seats := seats[Seat(outgoing, p, Dm) := seats[Seat(outgoing, p, Dm)].(leftAt := Some(now))];
      :- UpsertSeat(Seat(incoming, p, Dm), now);
      var theirs := Seat(outgoing, p, Player);
      if theirs !in seats {
        :- CreateSeat(theirs, Membership(None, now, None));
      } else if seats[theirs].leftAt.Some? {
        seats := seats[theirs := seats[theirs].(leftAt := None, joinedAt := now, character := None)];
      }
      :- Need(p in parties, "P2025");
      var bankerCascade := parties[p].banker == Some(incoming);
      r := UpdateParty(p, parties[p].(owner := incoming, banker := if bankerCascade then None else parties[p].banker));
    }

    method RemoveCharacterOf(u: UserId, p: PartyId) returns (r: Outcome)
      modifies this
      ensures Valid(old(Db())) && CanDepart(old(Db()), u, p) ==> r.Pass? && Db() == WithoutCharacterOf(old(Db()), u, p)
      ensures r.Pass? ==> SameActivity(old(seats), seats)
    {
      var mine := Seat(u, p, Player);
      if mine in seats && seats[mine].leftAt.None? && seats[mine].character.Some? {
        if Valid(Db()) && CanDepart(Db(), u, p) {
          LinkedDeletable(Db(), u, p);
        }
        :- CascadeCharacter(seats[mine].character.value);
      }
      r := Pass;
    }

    /** The steps leaving and being kicked share. */
    method RemoveMember(u: UserId, p: PartyId, now: Time) returns (r: Outcome)
      modifies this
      ensures Valid(old(Db())) && CanDepart(old(Db()), u, p) ==> r.Pass? && Db() == Depart(old(Db()), u, p, now)
      ensures r.Pass? ==> exists before :: SameActivity(old(seats), before) && seats == SoftDelete(before, u, p, now)
    {
      r := Pass;
      :- RemoveCharacterOf(u, p);
      EndMembership(u, p, now);
    }

    method EndMembership(u: UserId, p: PartyId, now: Time)
      modifies this`seats, this`parties
      ensures seats == SoftDelete(old(seats), u, p, now)
      ensures parties == if p in old(parties) then WithoutBanker(old(parties), u, p) else old(parties)
    {
      seats := SoftDelete(seats, u, p, now);
      if p in parties && parties[p].banker == Some(u) {
        parties := parties[p := parties[p].(banker := None)];
      }
    }

    method LeaveParty(u: UserId, p: PartyId, now: Time) returns (r: Outcome)
      modifies this
      ensures Valid(old(Db())) && CanDepart(old(Db()), u, p) ==> r.Pass? && Db() == Depart(old(Db()), u, p, now)
      ensures Sole(old(seats), u, p) ==> r.Thrown?
    {
      ghost var before := Db();
      :- RemoveMember(u, p, now);
      Remaining(before, seats, u, p, now);
      :- Need(Manned(seats, p), "leave-party: server cascade emptied the party; use archive flow instead");
      r := Pass;
    }

    method KickPlayer(actor: UserId, u: UserId, p: PartyId, now: Time) returns (r: Outcome)
      modifies this
      ensures Valid(old(Db())) && CanDepart(old(Db()), u, p) && actor != u ==> r.Pass? && Db() == Depart(old(Db()), u, p, now)
      ensures actor == u ==> r.Thrown? && Db() == old(Db())
    {
      r := Pass;
      :- Need(actor != u, "kick-player: actor cannot kick themselves");
      r := RemoveMember(u, p, now);
    }

    // -------------------------------------------------------------- founding and leaving a party

    /** Writes the rows of a new party: the party, its character if any, stashes, memberships, holdings. */
    method Bootstrap(u: UserId, p: PartyId, pool: StashId, loot: StashId, character: Option<NewCharacter>, now: Time) returns (r: Outcome)
      modifies this
      ensures r.Pass? ==> Db() == Found(old(Db()), u, p, pool, loot, character, now)
      ensures r.Pass? <==> RoomForParty(old(Db()), u, p, pool, loot, character)
    {
      ghost var before := Db();
      r := CreateRows(u, p, pool, loot, character, now);
      if r.Pass? {
        FoundByTable(before, u, p, pool, loot, character, now);
      }
    }

    method CreateRows(u: UserId, p: PartyId, pool: StashId, loot: StashId, character: Option<NewCharacter>, now: Time) returns (r: Outcome)
      modifies this
      ensures r.Pass? && character.Some? ==> Seat(u, p, Player) !in old(seats)
      ensures r.Pass? ==> Db() == old(Db()).(
                parties := old(parties)[p := Party(u, None, loot, 1.0, false)],
                characters := PartyCharacters(old(characters), u, p, character),
                stashes := PartyStashes(old(stashes), p, pool, loot, character),
                seats := PartySeats(old(seats), u, p, character, now),
                holdings := PartyHoldings(old(holdings), pool, loot, character))
      ensures r.Pass? <==> RoomForParty(old(Db()), u, p, pool, loot, character)
    {
      r := Pass;
      :- CreatePartyRow(p, Party(u, None, loot, 1.0, false));
      :- CreateCharacters(u, p, character);
      :- CreateStashes(p, pool, loot, character);
      :- CreateMemberships(u, p, character, now);
      r := CreateHoldings(pool, loot, character);
    }

    method CreatePartyRow(p: PartyId, party: Party) returns (r: Outcome)
      modifies this`parties
      ensures r.Pass? <==> p !in old(parties)
      ensures r.Pass? ==> parties == old(parties)[p := party]
    {
      r := Pass;
      :- Need(p !in parties, "P2002");
      parties := parties[p := party];
    }

    method CreateCharacters(u: UserId, p: PartyId, character: Option<NewCharacter>) returns (r: Outcome)
      modifies this`characters
      ensures r.Pass? <==> character.None? || (character.value.id !in old(characters) && p in parties)
      ensures r.Pass? ==> characters == PartyCharacters(old(characters), u, p, character)
    {
      r := Pass;
      if character.Some? {
        r := CreateCharacterRow(character.value.id, Character(p, u, character.value.inventory));
      }
    }

    method CreateStashes(p: PartyId, pool: StashId, loot: StashId, character: Option<NewCharacter>) returns (r: Outcome)
      modifies this`stashes
      ensures r.Pass? ==> stashes == PartyStashes(old(stashes), p, pool, loot, character)
      ensures r.Pass? <==> (
        && StashRoom(old(stashes), p, pool, loot, character) && p in parties
        && (character.Some? ==> character.value.id in characters))
    {
      r := Pass;
      :- InsertStash(pool, Stash(PartyScope, false, None, Some(p)));
      assert forall t :: t in old(stashes) ==> t in stashes && stashes[t] == old(stashes)[t];
      :- InsertStash(loot, Stash(LootScope, false, None, Some(p)));
      assert forall t :: t in old(stashes) ==> t in stashes && stashes[t] == old(stashes)[t];
      if character.Some? {
        r := InsertStash(character.value.inventory, Stash(CharacterScope, true, Some(character.value.id), None));
      }
    }

    method CreateMemberships(u: UserId, p: PartyId, character: Option<NewCharacter>, now: Time) returns (r: Outcome)
      modifies this`seats
      ensures r.Pass? ==> seats == PartySeats(old(seats), u, p, character, now)
      ensures r.Pass? <==> (
        && SeatRoom(old(seats), u, p, character) && p in parties
        && (character.Some? ==> character.value.id in characters))
    {
      r := Pass;
      :- CreateSeat(Seat(u, p, Dm), Membership(None, now, None));
      if character.Some? {
        r := CreateSeat(Seat(u, p, Player), Membership(Some(character.value.id), now, None));
      }
    }

    method CreateHoldings(pool: StashId, loot: StashId, character: Option<NewCharacter>) returns (r: Outcome)
      modifies this`holdings
      ensures r.Pass? ==> holdings == PartyHoldings(old(holdings), pool, loot, character)
      ensures r.Pass? <==> HoldingRoom(old(holdings), stashes, pool, loot, character)
    {
      r := Pass;
      :- InsertHolding(pool);
      :- InsertHolding(loot);
      if character.Some? {
        r := InsertHolding(character.value.inventory);
      }
    }

    /**
     * Leaving for good (apps/server/src/parties/leave.ts): the last member archives the party; any
     * other leaves through the cascade, unless they are the DM, and then nothing has happened.
     */
    method LeavePartyForUser(u: UserId, p: PartyId, now: Time) returns (r: Outcome, archived: bool)
      requires Valid(Db()) && Open(parties, p) && IsMember(seats, u, p)
      modifies this
      ensures r.Pass? <==> CanLeave(old(Db()), u, p)
      ensures r.Pass? ==> Db() == Apply(old(Db()), OnParty(PartyAction.LeaveParty(u, p, now)))
      ensures r.Pass? ==> (archived <==> Sole(old(seats), u, p))
      ensures r.Thrown? ==> Db() == old(Db())
    {
      SoleByUsers(seats, u, p);
      if ActiveUsers(seats, p) == {u} {
        ArchiveParty(u, p, now);
        return Pass, true;
      }
      archived := false;
      r := LeaveOthers(u, p, now);
    }

    method ArchiveParty(u: UserId, p: PartyId, now: Time)
      requires p in parties
      modifies this`seats, this`parties
      ensures Db() == Archive(old(Db()), u, p, now)
    {
      seats := SoftDelete(seats, u, p, now);
      parties := parties[p := parties[p].(archived := true)];
    }

    /** Leaving a party others stay in. */
    method LeaveOthers(u: UserId, p: PartyId, now: Time) returns (r: Outcome)
      requires Valid(Db()) && Open(parties, p) && IsMember(seats, u, p)
      modifies this
      ensures r.Pass? <==> CanDepart(old(Db()), u, p)
      ensures r.Pass? ==> Db() == Depart(old(Db()), u, p, now)
      ensures r.Thrown? ==> Db() == old(Db())
    {
      var before := Db();
      r := LeaveParty(u, p, now);
      assert Governed(before.parties[p], p, before.seats);
      if r.Pass? && LastDm(before.seats, u, p) {
        r := Thrown("leave-party: sole DM must transfer DM role first");
      }
      if r.Thrown? {
        Restore(before);
      }
    }

    // -------------------------------------------------------------- trade

    /** Re-changes a stash's whole holding to a worth in copper. */
    method SetWorth(s: StashId, worth: int) returns (r: Outcome)
      modifies this`holdings
      ensures r.Pass? <==> s in old(holdings) && worth >= 0
      ensures r.Pass? ==> holdings == old(holdings)[s := Change(worth)]
    {
      var coins := FromCopper(worth);
      if coins.Err? {
        return Thrown(coins.error);
      }
      ChangeExact(worth);
      r := UpdateHolding(s, coins.value);
    }

    /** What one unit costs by the catalogue, scaled for the party and the shop. */
    method ScaledPrice(h: ShopId, d: DefId) returns (r: Outcome, price: int)
      ensures r.Pass? <==> h in shops && shops[h].party in parties && d in catalog && catalog[d].cost.Some?
      ensures r.Pass? ==> price == T.BuyUnit(Db(), h, d)
    {
      price := 0;
      :- Need(h in shops && shops[h].party in parties && d in catalog, "missing row");
      :- Need(catalog[d].cost.Some?, "catalog row has no cost");
      price := P.BuyPrice(T.BaseCost(catalog[d].cost.value), catalog[d].source, parties[shops[h].party].modifier, shops[h].modifier);
      r := Pass;
    }

    /** Stacks purchased units onto a plain row, or inserts one. */
    method AddPurchased(s: StashId, d: DefId, quantity: int, newId: ItemId) returns (r: Outcome, pick: Option<ItemId>)
      modifies this`items
      ensures I.FindFirst(old(items), pick, I.PurchaseStacksWith(s, d))
      ensures r.Pass? ==> items == I.Stack(old(items), pick, newId, I.NewRow(s, d, quantity, None))
      ensures ItemsOk(stashes, catalog, old(items)) && ItemOk(stashes, catalog, I.NewRow(s, d, quantity, None)) && newId !in old(items) ==> r.Pass?
    {
      pick := FindFirst(I.PurchaseStacksWith(s, d));
      if pick.Some? {
        var existing := items[pick.value];
        RowOk(pick.value);
        :- UpdateItem(pick.value, existing.(quantity := existing.quantity + quantity));
        return Pass, pick;
      }
      :- CreateItem(newId, Item(d, s, None, quantity, false, false, None, None, Details(true, None, None, None)));
      r := Pass;
    }

    method UnitPrice(h: ShopId, k: StockId) returns (r: Outcome, price: int)
      requires k in stock
      ensures T.Priced(Db(), h, k) ==> r.Pass? && price == T.UnitCost(Db(), h, k)
    {
      if stock[k].override.Some? {
        return Pass, stock[k].override.value;
      }
      r, price := ScaledPrice(h, stock[k].definition);
    }

    /** Looks up what a purchase needs, and charges the buyer's stash. */
    method Charge(h: ShopId, k: StockId, target: StashId, quantity: int) returns (r: Outcome)
      modifies this`holdings
      ensures r.Pass? ==> k in stock && target in old(holdings) && target in stashes
      ensures T.Priced(Db(), h, k) && target in stashes && target in old(holdings) ==> (
        && (r.Pass? <==> T.UnitCost(Db(), h, k) * quantity <= ToCopper(old(holdings)[target]))
        && (r.Pass? ==> holdings == old(holdings)[target := Change(ToCopper(old(holdings)[target]) - T.UnitCost(Db(), h, k) * quantity)]))
    {
      r := Pass;
      :- Need(h in shops, "unknown shopId");
      :- Need(k in stock, "unknown stockEntryId");
      :- Need(stock[k].definition in catalog, "unknown itemDefinition");
      :- Need(target in stashes, "unknown targetStashId");
      :- Need(shops[h].party in parties, "shop's party missing");
      var unitCost :- UnitPrice(h, k);
      :- Need(target in holdings, "no CurrencyHolding");
      var left := ToCopper(holdings[target]) - unitCost * quantity;
      :- Need(left >= 0, "insufficient funds");
      r := SetWorth(target, left);
    }

    method Purchase(h: ShopId, k: StockId, target: StashId, quantity: int, newId: ItemId) returns (r: Outcome, pick: Option<ItemId>)
      modifies this`holdings, this`items, this`stock
      ensures Purchasable(old(Db()), h, k, target, quantity, newId) ==> (
        && r.Pass? && T.PurchasePick(old(Db()), k, target, pick)
        && Db() == T.Purchase(old(Db()), h, k, target, quantity, newId, pick))
      ensures r.Pass? ==> (
        && k in old(stock) && target in old(holdings)
        && (old(stock)[k].quantity != UNLIMITED ==> quantity <= old(stock)[k].quantity)
        && (T.Priced(old(Db()), h, k) ==> T.UnitCost(old(Db()), h, k) * quantity <= ToCopper(old(holdings)[target])))
    {
      pick := None;
      :- Charge(h, k, target, quantity);
      r, pick := AddPurchased(target, stock[k].definition, quantity, newId);
      if r.Pass? {
        r := TakeFromStock(k, quantity);
      }
    }

    method TakeFromStock(k: StockId, quantity: int) returns (r: Outcome)
      requires k in stock
      modifies this`stock
      ensures r.Pass? <==> old(stock)[k].quantity == UNLIMITED || quantity <= old(stock)[k].quantity
      ensures r.Pass? ==> stock == T.TakeStock(old(stock), k, quantity)
    {
      var row := stock[k];
      if row.quantity != UNLIMITED {
        :- Need(row.quantity >= quantity, "stock decrement failed (race with another buyer)");
        stock := stock[k := row.(quantity := row.quantity - quantity)];
      }
      r := Pass;
    }

    /** Puts sold units on the shop's row for the definition, or on a new one. */
    method Restock(h: ShopId, d: DefId, quantity: int, newStock: StockId) returns (r: Outcome, pick: Option<StockId>)
      requires quantity >= 1
      modifies this`stock
      ensures T.SalePick(old(Db()), h, d, pick)
      ensures r.Pass? ==> stock == T.PutStock(old(stock), h, d, quantity, newStock, pick)
      ensures h in shops && newStock !in old(stock) && (forall k :: k in old(stock) ==> StockOk(shops, old(stock)[k])) ==> r.Pass?
    {
      if k :| k in stock && stock[k].shop == h && stock[k].definition == d {
        pick := Some(k);
        if stock[k].quantity != UNLIMITED {
          :- UpdateStock(k, stock[k].(quantity := stock[k].quantity + quantity));
        }
      } else {
        pick := None;
        :- CreateStock(newStock, Stock(h, d, None, quantity));
      }
      r := Pass;
    }

    /** What a shop pays for one unit. */
    method UnitCredit(h: ShopId, d: DefId) returns (r: Outcome, credit: int)
      ensures r.Pass? <==> h in shops && shops[h].party in parties && d in catalog && catalog[d].cost.Some?
      ensures r.Pass? ==> credit == T.SellUnit(Db(), h, d)
    {
      credit := 0;
      var scaled :- ScaledPrice(h, d);
      credit := (scaled as real * shops[h].rate + 0.5).Floor;
      r := Pass;
    }

    method TakeUnits(i: ItemId, quantity: int) returns (r: Outcome)
      modifies this`items
      ensures r.Pass? ==> i in old(items) && quantity <= old(items)[i].quantity && items == I.Consume(old(items), i, quantity)
      ensures i in old(items) && ItemOk(stashes, catalog, old(items)[i]) && quantity <= old(items)[i].quantity ==> r.Pass?
    {
      r := Pass;
      :- Need(i in items, "unknown itemInstanceId");
      :- Need(quantity <= items[i].quantity, "insufficient item quantity");
      if items[i].quantity == quantity {
        items := items - {i};
      } else {
        :- UpdateItem(i, items[i].(quantity := items[i].quantity - quantity));
      }
    }

    method Sale(h: ShopId, i: ItemId, quantity: int, newStock: StockId) returns (r: Outcome, pick: Option<StockId>)
      requires quantity >= 1
      modifies this`holdings, this`items, this`stock
      ensures Sellable(old(Db()), h, i, quantity, newStock) ==> (
        && r.Pass? && T.SalePick(old(Db()), h, old(items)[i].definition, pick)
        && Db() == T.Sell(old(Db()), h, i, quantity, newStock, pick))
      ensures r.Pass? ==> i in old(items) && quantity <= old(items)[i].quantity
    {
      pick := None;
      :- Need(i in items, "unknown itemInstanceId");
      var item := items[i];
      var unitCredit :- UnitCredit(h, item.definition);
      :- Need(item.stash in holdings, "no CurrencyHolding");
      :- SetWorth(item.stash, ToCopper(holdings[item.stash]) + unitCredit * quantity);
      :- TakeUnits(i, quantity);
      r, pick := Restock(h, item.definition, quantity, newStock);
    }

    method UpdateStock(k: StockId, row: Stock) returns (r: Outcome)
      modifies this`stock
      ensures r.Pass? <==> k in old(stock) && StockOk(shops, row)
      ensures r.Pass? ==> stock == old(stock)[k := row]
    {
      r := Pass;
      :- Need(k in stock, "P2025");
      :- Need(StockOk(shops, row), "stock constraint");
      stock := stock[k := row];
    }

    method CreateStock(k: StockId, row: Stock) returns (r: Outcome)
      modifies this`stock
      ensures r.Pass? <==> k !in old(stock) && StockOk(shops, row)
      ensures r.Pass? ==> stock == old(stock)[k := row]
    {
      r := Pass;
      :- Need(k !in stock, "P2002");
      :- Need(StockOk(shops, row), "stock constraint");
      stock := stock[k := row];
    }

    // -------------------------------------------------------------- any action

    method PerformParty(a: PartyAction) returns (r: Outcome)
      requires Valid(Db()) && LegalOnParty(Db(), a)
      modifies this
      ensures r.Pass? && Db() == ApplyParty(old(Db()), a)
    {
      match a
      case Bootstrap(u, p, pool, loot, character, now) =>
        PartyHasRoom(Db(), u, p, pool, loot, character);
        r := Bootstrap(u, p, pool, loot, character, now);
      case JoinParty(u, p, now) => r := JoinParty(u, p, now);
      case LeaveParty(u, p, now) =>
        var archived;
        r, archived := LeavePartyForUser(u, p, now);
      case KickPlayer(actor, u, p, now) => r := KickPlayer(actor, u, p, now);
      case DmTransfer(p, outgoing, incoming, now) => r := DmTransfer(p, outgoing, incoming, now);
      case AppointBanker(p, u) => r := AppointBanker(p, u);
      case RevokeBanker(p) => r := RevokeBanker(p);
    }

    method PerformStashes(a: StashAction) returns (r: Outcome)
      requires Valid(Db()) && LegalOnStashes(Db(), a)
      modifies this
      ensures r.Pass? && Db() == ApplyStashes(old(Db()), a)
    {
      match a
      case CreateCharacter(u, p, c, inventory, now) =>
        CharacterHasRoom(Db(), u, p, c, inventory);
        r := AddCharacter(u, p, c, inventory, now);
      case DropCharacter(c) => r := CascadeCharacter(c);
      case NewStash(c, s) => r := CreateStash(c, s);
      case DropStash(s) => r := DeleteStash(s);
    }

    method PerformCoins(a: CoinAction) returns (r: Outcome)
      requires Valid(Db()) && LegalOnCoins(Db(), a)
      modifies this`holdings
      ensures r.Pass? && holdings == ApplyCoins(old(Db()), a)
    {
      match a
      case CurrencyChange(s, delta) => r := CurrencyChange(s, delta);
      case CurrencyTransfer(from, to, delta) => r := CurrencyTransfer(from, to, delta);
      case SplitEvenly(pool, recipients) => r := SplitEvenly(pool, recipients);
    }

    /** Splitting and flagging are all the database may still refuse. */
    method PerformItems(a: ItemAction) returns (r: Outcome, taken: ItemAction)
      requires Valid(Db()) && exists b :: SameItemRequest(a, b) && LegalOnItems(Db(), b)
      modifies this`items
      ensures SameItemRequest(a, taken) && LegalOnItems(old(Db()), taken)
      ensures r.Pass? <==> Accepted(old(items), a)
      ensures r.Pass? ==> items == ApplyItems(old(Db()), taken)
    {
      ghost var b :| SameItemRequest(a, b) && LegalOnItems(Db(), b);
      taken := a;
      match a
      case Acquire(s, d, quantity, notes, newId, _) =>
        var pick;
        r, pick := Acquire(s, d, quantity, notes, newId);
        taken := Picking(a, pick);
      case Consume(i, quantity) => r := Consume(i, quantity);
      case Transfer(i, quantity, to, into, newId, _) =>
        var pick;
        r, pick := Transfer(i, quantity, to, into, newId);
        taken := Picking(a, pick);
      case Split(i, quantity, newId) => r := Split(i, quantity, newId);
      case SetFlag(i, flag, newId) => r := SetFlag(i, flag, Some(newId));
      case ClearFlag(i, flag, _) =>
        var pick;
        r, pick := ClearFlag(i, flag);
        taken := Picking(a, pick);
      case EditItem(i, charges, notes, details) =>
        RowOk(i);
        r := UpdateItem(i, items[i].(charges := charges, notes := notes, details := details));
    }

    method PerformTrade(a: TradeAction) returns (r: Outcome, taken: TradeAction)
      requires Valid(Db()) && exists b :: SameTradeRequest(a, b) && LegalOnTrade(Db(), b)
      modifies this
      ensures SameTradeRequest(a, taken) && LegalOnTrade(old(Db()), taken)
      ensures r.Pass? && Db() == ApplyTrade(old(Db()), taken)
    {
      ghost var b :| SameTradeRequest(a, b) && LegalOnTrade(Db(), b);
      match a
      case Purchase(h, k, target, quantity, newId, _) =>
        var pick;
        r, pick := Purchase(h, k, target, quantity, newId);
        taken := TradeAction.Purchase(h, k, target, quantity, newId, pick);
      case Sale(h, i, quantity, newStock, _) =>
        Sellability(Db(), h, i, quantity, newStock);
        var pick;
        r, pick := Sale(h, i, quantity, newStock);
        taken := TradeAction.Sale(h, i, quantity, newStock, pick);
    }

    /** Whether the database accepts what the action writes. */
    predicate Accepts(a: Action)
      reads this`items
    {
      a.OnItems? ==> Accepted(items, a.items)
    }

    method Dispatch(a: Action) returns (r: Outcome, taken: Action)
      requires Valid(Db()) && !a.OnSetup? && exists b :: SameRequest(a, b) && Legal(Db(), b)
      modifies this
      ensures SameRequest(a, taken) && Legal(old(Db()), taken)
      ensures r.Pass? <==> old(Accepts(a))
      ensures r.Pass? ==> Db() == Apply(old(Db()), taken)
    {
      ghost var b :| SameRequest(a, b) && Legal(Db(), b);
      taken := a;
      match a {
        case OnParty(x) => r := PerformParty(x);
        case OnStashes(x) => r := PerformStashes(x);
        case OnCoins(x) => r := PerformCoins(x);
        case OnItems(x) =>
          var y;
          r, y := PerformItems(x);
          taken := OnItems(y);
        case OnTrade(x) =>
          var y;
          r, y := PerformTrade(x);
          taken := OnTrade(y);
        case OnSetup(_) =>
      }
    }

    /**
     * One transaction. An action the guards and the reducer let through, for some answer of
     * `findFirst`, passes exactly when it inserts no row beside one in a nested container; then the
     * tables become what the ledger says for the answers that were got. Otherwise nothing has
     * changed. Either way the tables are sound.
     */
    method Perform(a: Action) returns (r: Outcome, taken: Action)
      requires Valid(Db()) && !a.OnSetup? && exists b :: SameRequest(a, b) && Legal(Db(), b)
      modifies this
      ensures SameRequest(a, taken) && Legal(old(Db()), taken)
      ensures r.Pass? <==> old(Accepts(a))
      ensures Db() == (if r.Pass? then Apply(old(Db()), taken) else old(Db())) && Valid(Db())
    {
      var before := Db();
      r, taken := Dispatch(a);
      if r.Thrown? {
        Restore(before);
      } else {
        ActionSafe(before, taken);
      }
    }
  }

  /** Some member of the set, as a query returns rows in no particular order. */
  method Next<T>(left: set<T>) returns (x: T)
    requires left != {}
    ensures x in left
  {
    x :| x in left;
  }

  /** Every recipient is a character whose Inventory has a holding. */
  ghost predicate Housed(characters: Characters, holdings: Holdings, recipients: seq<CharId>) {
    forall n :: 0 <= n < |recipients| ==> HousedAt(characters, holdings, recipients[n])
  }

  predicate HousedAt(characters: Characters, holdings: Holdings, c: CharId) {
    c in characters && characters[c].inventory in holdings
  }

  lemma RecipientsHoused(db: DB, pool: StashId, recipients: seq<CharId>)
    requires Valid(db) && CanSplitEvenly(db, pool, recipients)
    ensures Housed(db.characters, db.holdings, recipients)
  {
    RecipientsHold(db, pool, recipients);
    var to := Inventories(db.characters, recipients);
    forall n | 0 <= n < |recipients| ensures HousedAt(db.characters, db.holdings, recipients[n]) {
      assert to[n] in db.holdings;
    }
  }

  lemma NextRecipient(characters: Characters, holdings: Holdings, recipients: seq<CharId>, n: nat)
    requires n < |recipients| && Housed(characters, holdings, recipients[..n]) && HousedAt(characters, holdings, recipients[n])
    ensures Housed(characters, holdings, recipients[..n + 1])
    ensures Inventories(characters, recipients[..n + 1]) == Inventories(characters, recipients[..n]) + [characters[recipients[n]].inventory]
  {
    assert recipients[..n + 1] == recipients[..n] + [recipients[n]];
    var to := Inventories(characters, recipients[..n + 1]);
    assert forall m :: 0 <= m < n ==> HousedAt(characters, holdings, recipients[..n][m]);
    assert to[..n] == Inventories(characters, recipients[..n]);
  }

  /** The rows outside the given stashes. */
  function Outside(items: Items, from: set<StashId>): Items {
    map i | i in items && items[i].stash !in from :: items[i]
  }

  /** Rows moved out of stashes are not dropped with them, and dropping stashes twice changes nothing. */
  lemma SweptAndDropped(db: DB, from: set<StashId>, to: StashId)
    requires to !in from && to in db.holdings
    ensures Outside(I.Sweep(db.items, from, to), from) == I.Sweep(db.items, from, to)
    ensures C.Deposit(db.holdings, to, C.Gathered(db.holdings, from)) - from == C.Sweep(db.holdings, from, to)
    ensures C.Sweep(db.holdings, from, to) - from == C.Sweep(db.holdings, from, to)
    ensures db.stashes - from - from == db.stashes - from
  {
    DepositThenDrop(db.holdings, from, to, C.Gathered(db.holdings, from));
    assert db.stashes - from - from == db.stashes - from;
  }

  lemma DepositThenDrop(holdings: Holdings, from: set<StashId>, to: StashId, sum: Coins)
    requires to !in from && to in holdings
    ensures C.Deposit(holdings, to, sum) - from == C.Deposit(holdings - from, to, sum)
    ensures C.Deposit(holdings - from, to, sum) - from == C.Deposit(holdings - from, to, sum)
  {
  }

  /** No row names the character. */
  predicate Unnamed(seats: Seats, c: CharId) {
    forall seat :: seat in seats ==> seats[seat].character != Some(c)
  }

  /** The stashes whose rows refer to the character, whatever their scope. */
  function StashesOf(stashes: Stashes, c: CharId): set<StashId> {
    set s | s in stashes && stashes[s].owner == Some(c)
  }

  /** What dropping a character with its stashes relies on. */
  ghost predicate Droppable(db: DB, c: CharId, owned: set<StashId>, loot: StashId) {
    && c in db.characters && owned != {} && loot in db.holdings && loot !in owned && C.Solvent(db.holdings)
    && owned == StashesOf(db.stashes, c)
    && Unnamed(Unlink(db.seats, c), c)
  }

  lemma Unencumbered(db: DB, c: CharId)
    requires Valid(db) && CanDeleteCharacter(db, c)
    ensures Droppable(db, c, OwnedBy(db.stashes, c), db.parties[db.characters[c].party].loot)
  {
    OwnedAll(db, c);
    OwnedSweepable(db, c);
    DeleteCharacterLinks(db, c);
  }

  /** A character's stashes are its own in scope too. */
  lemma OwnedAll(db: DB, c: CharId)
    requires Valid(db) && CanDeleteCharacter(db, c)
    ensures OwnedBy(db.stashes, c) == StashesOf(db.stashes, c)
    ensures OwnedBy(db.stashes, c) != {}
  {
    forall s | s in db.stashes && db.stashes[s].owner == Some(c) ensures db.stashes[s].scope == CharacterScope {
      assert StashOk(db.parties, db.characters, s, db.stashes[s]);
    }
    assert db.characters[c].inventory in OwnedBy(db.stashes, c);
  }

  /** A Recovered Loot of the party the stash's owner is in. */
  predicate LootFor(db: DB, s: StashId, loot: StashId) {
    && s in db.stashes && db.stashes[s].owner.Some? && db.stashes[s].owner.value in db.characters
    && loot in db.stashes && db.stashes[loot].scope == LootScope
    && db.stashes[loot].party == Some(db.characters[db.stashes[s].owner.value].party)
  }

  lemma OnlyLoot(db: DB, p: PartyId)
    requires Valid(db) && p in db.parties
    ensures var loot := db.parties[p].loot;
      && loot in db.stashes && db.stashes[loot].party == Some(p) && db.stashes[loot].scope == LootScope
      && forall s :: s in db.stashes && db.stashes[s].party == Some(p) && db.stashes[s].scope == LootScope ==> s == loot
  {
    forall s | s in db.stashes && db.stashes[s].party == Some(p) && db.stashes[s].scope == LootScope
      ensures s == db.parties[p].loot
    {
      assert StashOk(db.parties, db.characters, s, db.stashes[s]);
    }
  }

  /** No key the new rows take is taken: in particular no soft-deleted player row is in the way. */
  ghost predicate RoomForCharacter(db: DB, u: UserId, p: PartyId, c: CharId, inventory: StashId) {
    && p in db.parties && c !in db.characters && inventory !in db.stashes && inventory !in db.holdings
    && (forall t :: t in db.stashes ==> !(db.stashes[t].carried && db.stashes[t].owner == Some(c)))
    && (Seat(u, p, Player) in db.seats ==> db.seats[Seat(u, p, Player)].leftAt.None? && db.seats[Seat(u, p, Player)].character.None?)
  }

  lemma CharacterHasRoom(db: DB, u: UserId, p: PartyId, c: CharId, inventory: StashId)
    requires Valid(db) && CanAddCharacter(db, u, p, c, inventory)
    ensures RoomForCharacter(db, u, p, c, inventory)
  {
    forall t | t in db.stashes ensures db.stashes[t].owner != Some(c) {
      assert StashOk(db.parties, db.characters, t, db.stashes[t]);
    }
  }

  /** Somebody is active in the party. */
  predicate Manned(seats: Seats, p: PartyId) {
    exists seat :: seat in seats && seat.party == p && seats[seat].leftAt.None?
  }

  /** Whether anyone remains tells a last member's departure from any other. */
  lemma Remaining(before: DB, after: Seats, u: UserId, p: PartyId, now: Time)
    requires exists between :: SameActivity(before.seats, between) && after == SoftDelete(between, u, p, now)
    requires Valid(before) && CanDepart(before, u, p) ==> after == Depart(before, u, p, now).seats
    ensures Sole(before.seats, u, p) ==> !Manned(after, p)
    ensures Valid(before) && CanDepart(before, u, p) ==> Manned(after, p)
  {
    if Sole(before.seats, u, p) {
      NobodyRemains(before.seats, after, u, p, now);
    }
    if Valid(before) && CanDepart(before, u, p) {
      SomeoneRemains(before, u, p, now);
    }
  }

  lemma NobodyRemains(before: Seats, after: Seats, u: UserId, p: PartyId, now: Time)
    requires Sole(before, u, p)
    requires exists between :: SameActivity(before, between) && after == SoftDelete(between, u, p, now)
    ensures !Manned(after, p)
  {
    var between :| SameActivity(before, between) && after == SoftDelete(between, u, p, now);
    forall seat: Seat | seat in after && seat.party == p ensures after[seat].leftAt.Some? {
      if Active(before, seat) {
        assert seat.role == Dm || seat.role == Player;
        assert seat == Seat(seat.user, p, seat.role);
        assert IsMember(before, seat.user, p);
      }
    }
  }

  lemma SomeoneRemains(db: DB, u: UserId, p: PartyId, now: Time)
    requires Valid(db) && CanDepart(db, u, p)
    ensures Manned(Depart(db, u, p, now).seats, p)
  {
    DepartGone(db, u, p, now);
    var after, owner := Depart(db, u, p, now).seats, db.parties[p].owner;
    assert IsMember(after, owner, p);
    var seat := if Active(after, Seat(owner, p, Dm)) then Seat(owner, p, Dm) else Seat(owner, p, Player);
    assert seat in after && Active(after, seat);
  }

  function ActiveUsers(seats: Seats, p: PartyId): set<UserId> {
    set seat | seat in seats && seat.party == p && seats[seat].leftAt.None? :: seat.user
  }

  lemma SoleByUsers(seats: Seats, u: UserId, p: PartyId)
    requires IsMember(seats, u, p)
    ensures ActiveUsers(seats, p) == {u} <==> Sole(seats, u, p)
  {
    forall v ensures v in ActiveUsers(seats, p) <==> IsMember(seats, v, p) {
      if v in ActiveUsers(seats, p) {
        var seat :| seat in seats && seat.party == p && seats[seat].leftAt.None? && seat.user == v;
        assert seat.role == Dm || seat.role == Player;
        assert seat == Seat(v, p, seat.role);
      }
      assert Active(seats, Seat(v, p, Dm)) ==> Seat(v, p, Dm).user in ActiveUsers(seats, p);
      assert Active(seats, Seat(v, p, Player)) ==> Seat(v, p, Player).user in ActiveUsers(seats, p);
    }
  }

  /** The user is an active DM and nobody else is. */
  predicate LastDm(seats: Seats, u: UserId, p: PartyId) {
    && Active(seats, Seat(u, p, Dm))
    && !exists seat :: seat in seats && seat.party == p && seat.role == Dm && seat.user != u && seats[seat].leftAt.None?
  }

  function PartyStashes(stashes: Stashes, p: PartyId, pool: StashId, loot: StashId, character: Option<NewCharacter>): Stashes {
    var both := stashes[pool := Stash(PartyScope, false, None, Some(p))][loot := Stash(LootScope, false, None, Some(p))];
    if character.Some? then both[character.value.inventory := Stash(CharacterScope, true, Some(character.value.id), None)] else both
  }

  function PartySeats(seats: Seats, u: UserId, p: PartyId, character: Option<NewCharacter>, now: Time): Seats {
    var led := seats[Seat(u, p, Dm) := Row(None, now)];
    if character.Some? then led[Seat(u, p, Player) := Row(Some(character.value.id), now)] else led
  }

  function PartyHoldings(holdings: Holdings, pool: StashId, loot: StashId, character: Option<NewCharacter>): Holdings {
    var both := holdings[pool := NO_COINS][loot := NO_COINS];
    if character.Some? then both[character.value.inventory := NO_COINS] else both
  }

  function PartyCharacters(characters: Characters, u: UserId, p: PartyId, character: Option<NewCharacter>): Characters {
    if character.Some? then characters[character.value.id := Character(p, u, character.value.inventory)] else characters
  }

  /** Founding a party, table by table. */
  lemma FoundByTable(db: DB, u: UserId, p: PartyId, pool: StashId, loot: StashId, character: Option<NewCharacter>, now: Time)
    requires character.Some? ==> Seat(u, p, Player) !in db.seats
    ensures Found(db, u, p, pool, loot, character, now) == db.(
              parties := db.parties[p := Party(u, None, loot, 1.0, false)],
              characters := PartyCharacters(db.characters, u, p, character),
              stashes := PartyStashes(db.stashes, p, pool, loot, character),
              seats := PartySeats(db.seats, u, p, character, now),
              holdings := PartyHoldings(db.holdings, pool, loot, character))
  {
  }

  ghost predicate StashRoom(stashes: Stashes, p: PartyId, pool: StashId, loot: StashId, character: Option<NewCharacter>) {
    && pool !in stashes && loot !in stashes && pool != loot
    && (forall t :: t in stashes ==> !(stashes[t].scope == LootScope && stashes[t].party == Some(p)))
    && (character.Some? ==>
          var c := character.value;
          && c.inventory !in stashes && c.inventory != pool && c.inventory != loot
          && forall t :: t in stashes ==> !(stashes[t].carried && stashes[t].owner == Some(c.id)))
  }

  predicate SeatRoom(seats: Seats, u: UserId, p: PartyId, character: Option<NewCharacter>) {
    Seat(u, p, Dm) !in seats && (character.Some? ==> Seat(u, p, Player) !in seats)
  }

  predicate HoldingRoom(holdings: Holdings, stashes: Stashes, pool: StashId, loot: StashId, character: Option<NewCharacter>) {
    && pool !in holdings && loot !in holdings && pool != loot && pool in stashes && loot in stashes
    && (character.Some? ==>
          var s := character.value.inventory;
          s !in holdings && s != pool && s != loot && s in stashes)
  }

  /** None of the keys a new party takes is taken. */
  ghost predicate RoomForParty(db: DB, u: UserId, p: PartyId, pool: StashId, loot: StashId, character: Option<NewCharacter>) {
    && p !in db.parties && (character.Some? ==> character.value.id !in db.characters)
    && StashRoom(db.stashes, p, pool, loot, character)
    && SeatRoom(db.seats, u, p, character)
    && HoldingRoom(db.holdings, PartyStashes(db.stashes, p, pool, loot, character), pool, loot, character)
  }

  lemma PartyHasRoom(db: DB, u: UserId, p: PartyId, pool: StashId, loot: StashId, character: Option<NewCharacter>)
    requires Valid(db) && CanFound(db, p, pool, loot, character)
    ensures RoomForParty(db, u, p, pool, loot, character)
  {
    forall t | t in db.stashes
      ensures db.stashes[t].party != Some(p) && (character.Some? ==> db.stashes[t].owner != Some(character.value.id))
    {
      assert StashOk(db.parties, db.characters, t, db.stashes[t]);
    }
  }

  /** What a purchase relies on besides the guards. */
  ghost predicate Purchasable(db: DB, h: ShopId, k: StockId, target: StashId, quantity: int, newId: ItemId) {
    && T.CanPurchase(db, h, k, target, quantity, newId)
    && target in db.stashes
    && ItemsOk(db.stashes, db.catalog, db.items)
  }

  ghost predicate Sellable(db: DB, h: ShopId, i: ItemId, quantity: int, newStock: StockId) {
    && T.CanSell(db, h, i, quantity, newStock)
    && ItemOk(db.stashes, db.catalog, db.items[i])
    && ToCopper(db.holdings[db.items[i].stash]) >= 0
    && (forall k :: k in db.stock ==> StockOk(db.shops, db.stock[k]))
  }

  lemma Sellability(db: DB, h: ShopId, i: ItemId, quantity: int, newStock: StockId)
    requires Valid(db) && T.CanSell(db, h, i, quantity, newStock)
    ensures Sellable(db, h, i, quantity, newStock)
  {
    assert db.holdings[db.items[i].stash].NonNegative();
  }
}
