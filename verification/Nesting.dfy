/**
 * Containers inside containers. The reducer keeps a row from being packed into a nested container,
 * but not a container that holds rows from being packed; the database then refuses to insert rows
 * beside the ones that have ended up two deep.
 */
module Nesting {
  import opened Currency
  import opened Effects
  import opened Ledger
  import opened LedgerSafe
  import opened Runs
  import opened Tables
  import opened Wrappers
  import I = ItemRows
  import P = Pricing

  /** No row is inside a row that is inside another. */
  ghost predicate Flat(items: Items) {
    forall i :: i in items ==> I.Shallow(items, items[i].container)
  }

  /** The row the action puts, or leaves, inside a container under a new place or a new id. */
  function PutInside(items: Items, a: ItemAction): Option<ItemId> {
    match a
    case Transfer(i, quantity, _, into, newId, pick) =>
      if i !in items || into.None? || into.value.None? then None
      else if !I.MovesAll(items, i, quantity) then Some(newId)
      else if pick.None? then Some(i) else None
    case Split(i, _, newId) => if i in items && items[i].container.Some? then Some(newId) else None
    case SetFlag(i, _, newId) => if i in items && items[i].container.Some? && items[i].quantity > 1 then Some(newId) else None
    case _ => None
  }

  /** That row already has others inside it. */
  predicate Nests(items: Items, a: ItemAction) {
    var k := PutInside(items, a);
    k.Some? && exists j :: j in items && j != k.value && items[j].container == k
  }

  /** Where nothing is two deep, an accepted action puts something two deep exactly when it packs a row that has others inside. */
  lemma FlatKept(db: DB, a: ItemAction)
    requires Flat(db.items) && LegalOnItems(db, a)
    ensures Accepted(db.items, a)
    ensures Flat(ApplyItems(db, a)) <==> !Nests(db.items, a)
  {
    var items, after := db.items, ApplyItems(db, a);
    if Nests(items, a) {
      NestedDeep(db, a);
    } else {
      forall j | j in after ensures I.Shallow(after, after[j].container) {
        if j in items {
          assert I.Shallow(items, items[j].container);
        }
      }
    }
  }

  lemma NestedDeep(db: DB, a: ItemAction)
    requires Flat(db.items) && LegalOnItems(db, a) && Nests(db.items, a)
    ensures !Flat(ApplyItems(db, a))
  {
    var items, after := db.items, ApplyItems(db, a);
    var k := PutInside(items, a);
    var j :| j in items && j != k.value && items[j].container == k;
    assert after[j].container == k && !I.Shallow(after, k);
  }

  // ---------------------------------------------------------------- over runs

  /** The action takes rows out of containers at most, and any new row is in none. */
  ghost predicate Unpacks(before: Items, after: Items) {
    forall i :: i in after ==> after[i].container.None? || (i in before && after[i].container == before[i].container)
  }

  /** And no row that is not in a container gets into one. */
  lemma UnpackedFlat(before: Items, after: Items)
    requires Flat(before) && Unpacks(before, after)
    ensures Flat(after)
  {
    forall i | i in after ensures I.Shallow(after, after[i].container) {
      if after[i].container.Some? && after[i].container.value in after {
        var k := after[i].container.value;
        assert I.Shallow(before, before[i].container);
        assert k in before ==> before[k].container.None?;
        assert k in after;
      }
    }
  }

  lemma TradeUnpacks(db: DB, a: TradeAction)
    requires LegalOnTrade(db, a)
    ensures Unpacks(db.items, ApplyTrade(db, a).items)
  {
  }

  /** The action packs no row that has others inside it. */
  predicate PacksSingly(db: DB, a: Action) {
    a.OnItems? ==> !Nests(db.items, a.items)
  }

  /** Any action but one on items only unpacks. */
  lemma OthersUnpack(db: DB, a: Action)
    requires Valid(db) && Legal(db, a) && !a.OnItems?
    ensures Unpacks(db.items, Apply(db, a).items)
  {
    if a.OnTrade? {
      TradeUnpacks(db, a.trade);
    } else {
      OthersSweep(db, a);
    }
  }

  lemma ActionFlat(db: DB, a: Action)
    requires Valid(db) && Legal(db, a) && Flat(db.items) && PacksSingly(db, a)
    ensures Flat(Apply(db, a).items)
  {
    if a.OnItems? {
      FlatKept(db, a.items);
    } else {
      OthersUnpack(db, a);
      UnpackedFlat(db.items, Apply(db, a).items);
    }
  }

  ghost predicate PackingSingly(db: DB, run: seq<Action>)
    requires Valid(db) && LegalRun(db, run)
    decreases |run|
  {
    run != [] ==>
      PacksSingly(db, run[0]) && (ActionSafe(db, run[0]); PackingSingly(Apply(db, run[0]), run[1..]))
  }

  /** As long as nobody packs a container that holds something, nothing is two deep and the database refuses no legal action. */
  lemma {:induction false} RunsStayFlat(db: DB, run: seq<Action>, next: ItemAction)
    requires Valid(db) && Flat(db.items) && LegalRun(db, run) && PackingSingly(db, run)
    ensures Flat(Run(db, run).items)
    ensures LegalOnItems(Run(db, run), next) ==> Accepted(Run(db, run).items, next)
    decreases |run|
  {
    if run == [] {
      if LegalOnItems(db, next) {
        FlatKept(db, next);
      }
    } else {
      ActionSafe(db, run[0]);
      ActionFlat(db, run[0]);
      RunsStayFlat(Apply(db, run[0]), run[1..], next);
    }
  }

  // ---------------------------------------------------------------- a legal action the database refuses

  const POOL: StashId := 1
  const LOOT: StashId := 2
  const BAG: ItemId := 10
  const CHEST: ItemId := 11
  const ARROWS: ItemId := 12

  function Unit(d: DefId, container: Option<ItemId>, quantity: int): Item {
    Item(d, POOL, container, quantity, false, false, None, None, I.PLAIN)
  }

  /** A party whose pool holds an empty chest and a bag with two arrows in it. */
  function Packed(): DB {
    DB(map[7 := Party(3, None, LOOT, 1.0, false)],
       map[Seat(3, 7, Dm) := Membership(None, 0, None)],
       map[],
       map[POOL := Stash(PartyScope, false, None, Some(7)), LOOT := Stash(LootScope, false, None, Some(7))],
       map[POOL := NO_COINS, LOOT := NO_COINS],
       map[BAG := Unit(4, None, 1), CHEST := Unit(5, None, 1), ARROWS := Unit(6, Some(BAG), 2)],
       map[], map[], map[4 := Definition(P.PHB, None), 5 := Definition(P.PHB, None), 6 := Definition(P.PHB, None)])
  }

  lemma PackedMembers()
    ensures var db := Packed();
      PartiesOk(db.parties, db.seats) && SeatsOk(db.seats) && LinksOk(db.parties, db.seats, db.characters)
  {
    var db := Packed();
    assert Active(db.seats, Seat(3, 7, Dm));
    assert Governed(db.parties[7], 7, db.seats);
  }

  lemma PackedStashes()
    ensures var db := Packed();
      StashesOk(db.parties, db.characters, db.stashes) && HoldingsOk(db.stashes, db.holdings)
  {
    var db := Packed();
    assert StashOk(db.parties, db.characters, POOL, db.stashes[POOL]);
    assert StashOk(db.parties, db.characters, LOOT, db.stashes[LOOT]);
  }

  lemma PackedItems()
    ensures var db := Packed();
      ItemsOk(db.stashes, db.catalog, db.items) && ShopsOk(db.parties, db.shops, db.stock) && CatalogOk(db.catalog)
    ensures Flat(Packed().items)
  {
  }

  lemma PackedValid()
    ensures Valid(Packed()) && Flat(Packed().items)
  {
    PackedMembers();
    PackedStashes();
    PackedItems();
  }

  /** Putting the bag into the chest, and then taking one arrow off the two. */
  const PACK := ItemAction.Transfer(BAG, 1, POOL, Some(Some(CHEST)), 20, None)
  const TAKE := ItemAction.Split(ARROWS, 1, 21)

  /** Both are legal, and only the second is refused: its new row would be in the bag, which is in the chest. */
  lemma TakingRefused()
    ensures Valid(Packed()) && LegalOnItems(Packed(), PACK) && Accepted(Packed().items, PACK)
    ensures var after := Packed().(items := ApplyItems(Packed(), PACK));
      Valid(after) && LegalOnItems(after, TAKE) && !Accepted(after.items, TAKE)
  {
    PackedValid();
    PackLegal();
    PackedAfter();
    PackKeepsValid(Packed(), PACK);
    TakeRefused(Packed().(items := ApplyItems(Packed(), PACK)));
  }

  lemma TakeRefused(db: DB)
    requires db.items == map[BAG := Unit(4, Some(CHEST), 1), CHEST := Unit(5, None, 1), ARROWS := Unit(6, Some(BAG), 2)]
    ensures LegalOnItems(db, TAKE) && !Accepted(db.items, TAKE)
  {
  }

  lemma PackKeepsValid(db: DB, a: ItemAction)
    requires Valid(db) && LegalOnItems(db, a)
    ensures Valid(db.(items := ApplyItems(db, a)))
  {
    ActionSafe(db, OnItems(a));
  }

  lemma PackLegal()
    ensures LegalOnItems(Packed(), PACK)
  {
    var db := Packed();
    assert PartyOf(db.stashes, db.characters, POOL) == Some(7);
    assert I.FindFirst(db.items, None, I.TransferStacksWith(db.items[BAG], BAG, POOL));
  }

  lemma PackedAfter()
    requires LegalOnItems(Packed(), PACK)
    ensures var items := ApplyItems(Packed(), PACK);
      items == map[BAG := Unit(4, Some(CHEST), 1), CHEST := Unit(5, None, 1), ARROWS := Unit(6, Some(BAG), 2)]
  {
  }
}
