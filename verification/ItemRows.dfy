/** The item table's writes (apps/server/src/sync/persistor.ts), on the rows alone. */
module ItemRows {
  import opened MapSums
  import opened Tables
  import opened Wrappers

  /** What `findFirst` may return: some row that matches, or nothing if none does. */
  ghost predicate FindFirst(items: Items, pick: Option<ItemId>, matches: (ItemId, Item) -> bool) {
    if pick.Some? then pick.value in items && matches(pick.value, items[pick.value])
    else forall i :: i in items ==> !matches(i, items[i])
  }

  /**
   * What the database asks of a row being put into a container: that the container is not itself
   * inside another. A container that is no row is let through.
   */
  predicate Shallow(items: Items, container: Option<ItemId>) {
    container.Some? && container.value in items ==> items[container.value].container.None?
  }

  // ---------------------------------------------------------------- acquire, purchase

  /** The auto-stack key of an acquired row. */
  function StacksWith(stash: StashId, d: DefId, notes: Option<string>): (ItemId, Item) -> bool {
    (i: ItemId, item: Item) => item.stash == stash && item.definition == d && item.notes == notes
  }

  /** The key a purchase stacks by: top-level rows without notes. */
  function PurchaseStacksWith(stash: StashId, d: DefId): (ItemId, Item) -> bool {
    (i: ItemId, item: Item) => item.stash == stash && item.definition == d && item.notes.None? && item.container.None?
  }

  const PLAIN := Details(true, None, None, None)

  function NewRow(stash: StashId, d: DefId, quantity: int, notes: Option<string>): Item {
    Item(d, stash, None, quantity, false, false, None, notes, PLAIN)
  }

  /** Adds the row's quantity to the picked row, or the row itself under the fresh id. */
  function Stack(items: Items, pick: Option<ItemId>, newId: ItemId, row: Item): Items
    requires pick.Some? ==> pick.value in items
  {
    if pick.Some? then Grow(items, pick.value, row.quantity) else items[newId := row]
  }

  function Grow(items: Items, i: ItemId, n: int): Items
    requires i in items
  {
    items[i := items[i].(quantity := items[i].quantity + n)]
  }

  // ---------------------------------------------------------------- consume, sale

  function Consume(items: Items, i: ItemId, quantity: int): Items
    requires i in items
  {
    if items[i].quantity - quantity <= 0 then items - {i} else Grow(items, i, -quantity)
  }

  // ---------------------------------------------------------------- transfer, split

  /** Where a transfer says to put the row: untouched, taken out, or into a container. */
  type ContainerChange = Option<Option<ItemId>>

  function TransferStacksWith(source: Item, id: ItemId, to: StashId): (ItemId, Item) -> bool {
    (i: ItemId, item: Item) =>
      item.stash == to && item.definition == source.definition && item.notes == source.notes && i != id
  }

  predicate MovesAll(items: Items, i: ItemId, quantity: int)
    requires i in items
  {
    quantity >= items[i].quantity
  }

  function Moved(source: Item, to: StashId, into: ContainerChange): Item {
    source.(stash := to, equipped := false, attuned := false,
            container := if into.Some? then into.value else source.container)
  }

  function Part(source: Item, quantity: int, to: StashId, container: Option<ItemId>): Item {
    source.(quantity := quantity, stash := to, container := container, equipped := false, attuned := false)
  }

  function Transfer(items: Items, i: ItemId, quantity: int, to: StashId, into: ContainerChange,
                    newId: ItemId, pick: Option<ItemId>): Items
    requires i in items && (pick.Some? ==> pick.value in items)
  {
    var source := items[i];
    if MovesAll(items, i, quantity) then
      (if pick.Some? then Grow(items, pick.value, source.quantity) - {i} else items[i := Moved(source, to, into)])
    else
      Grow(items, i, -quantity)[newId := Part(source, quantity, to, if into.Some? then into.value else None)]
  }

  function Split(items: Items, i: ItemId, quantity: int, newId: ItemId): Items
    requires i in items
  {
    Grow(items, i, -quantity)[newId := Part(items[i], quantity, items[i].stash, items[i].container)]
  }

  // ---------------------------------------------------------------- equip, attune and back

  datatype Flag = Equipped | Attuned

  function WithFlag(item: Item, flag: Flag, on: bool): Item {
    match flag
    case Equipped => item.(equipped := on)
    case Attuned => item.(attuned := on)
  }

  function Unflagged(item: Item): Item {
    item.(equipped := false, attuned := false)
  }

  /** Sets the flag, on a unit split off for it if the row is a stack. */
  function SetFlag(items: Items, i: ItemId, flag: Flag, newId: ItemId): Items
    requires i in items
  {
    if items[i].quantity <= 1 then items[i := WithFlag(items[i], flag, true)]
    else Grow(items, i, -1)[newId := WithFlag(Unflagged(items[i]), flag, true).(quantity := 1)]
  }

  predicate Mundane(item: Item) {
    !item.equipped && !item.attuned && item.charges.None?
  }

  function RestacksWith(patched: Item, id: ItemId): (ItemId, Item) -> bool {
    (i: ItemId, item: Item) =>
      && i != id && item.stash == patched.stash && item.definition == patched.definition
      && item.notes == patched.notes && item.container == patched.container && Mundane(item)
  }

  /** The row `findFirst` got, which is asked only if the patched row may merge. */
  ghost predicate RestackPick(items: Items, i: ItemId, patched: Item, pick: Option<ItemId>) {
    if Mundane(patched) then FindFirst(items, pick, RestacksWith(patched, i)) else pick.None?
  }

  /** Writes the patched row back, or merges it into a matching mundane stack. */
  function RestackOrPatch(items: Items, i: ItemId, patched: Item, pick: Option<ItemId>): Items
    requires i in items && (pick.Some? ==> pick.value in items && pick.value != i)
  {
    if !Mundane(patched) || pick.None? then items[i := patched]
    else Grow(items - {i}, pick.value, patched.quantity)
  }

  function ClearFlag(items: Items, i: ItemId, flag: Flag, pick: Option<ItemId>): Items
    requires i in items && (pick.Some? ==> pick.value in items && pick.value != i)
  {
    RestackOrPatch(items, i, WithFlag(items[i], flag, false), pick)
  }

  // ---------------------------------------------------------------- sweeping stashes

  /** Re-points the rows of the given stashes to another, taking them out and clearing their flags. */
  function Sweep(items: Items, from: set<StashId>, to: StashId): Items {
    map i | i in items ::
      if items[i].stash in from then Unflagged(items[i]).(stash := to, container := None) else items[i]
  }

  // ---------------------------------------------------------------- quantities

  /** The weight of a row counts its quantity, if its definition and stash are counted at all. */
  ghost predicate CountsQuantity(weight: (ItemId, Item) -> int, counted: (DefId, StashId) -> bool) {
    forall i, item :: weight(i, item) == if counted(item.definition, item.stash) then item.quantity else 0
  }

  lemma GrowSum(items: Items, i: ItemId, n: int, weight: (ItemId, Item) -> int, counted: (DefId, StashId) -> bool)
    requires i in items && CountsQuantity(weight, counted)
    ensures MapSum(Grow(items, i, n), weight)
         == MapSum(items, weight) + if counted(items[i].definition, items[i].stash) then n else 0
  {
    SumWrite(items, weight, i, items[i].(quantity := items[i].quantity + n));
  }

  lemma StackSum(items: Items, pick: Option<ItemId>, newId: ItemId, row: Item,
                 weight: (ItemId, Item) -> int, counted: (DefId, StashId) -> bool)
    requires CountsQuantity(weight, counted) && newId !in items
    requires pick.Some? ==>
      pick.value in items && items[pick.value].definition == row.definition && items[pick.value].stash == row.stash
    ensures MapSum(Stack(items, pick, newId, row), weight)
         == MapSum(items, weight) + if counted(row.definition, row.stash) then row.quantity else 0
  {
    if pick.Some? {
      GrowSum(items, pick.value, row.quantity, weight, counted);
    } else {
      SumWrite(items, weight, newId, row);
    }
  }

  lemma ConsumeSum(items: Items, i: ItemId, quantity: int,
                   weight: (ItemId, Item) -> int, counted: (DefId, StashId) -> bool)
    requires i in items && CountsQuantity(weight, counted)
    ensures MapSum(Consume(items, i, quantity), weight)
         == MapSum(items, weight)
          - if counted(items[i].definition, items[i].stash)
            then (if quantity < items[i].quantity then quantity else items[i].quantity) else 0
  {
    if items[i].quantity - quantity <= 0 {
      SumTakeOut(items, weight, i);
    } else {
      GrowSum(items, i, -quantity, weight, counted);
    }
  }

  /** How many units a transfer moves: what is asked for, but never more than there are. */
  function MovedUnits(items: Items, i: ItemId, quantity: int): int
    requires i in items
  {
    if MovesAll(items, i, quantity) then items[i].quantity else quantity
  }

  /** A transfer takes the units it moves from where they were and puts them where they go. */
  lemma TransferSum(items: Items, i: ItemId, quantity: int, to: StashId, into: ContainerChange,
                    newId: ItemId, pick: Option<ItemId>,
                    weight: (ItemId, Item) -> int, counted: (DefId, StashId) -> bool)
    requires i in items && CountsQuantity(weight, counted)
    requires MovesAll(items, i, quantity) ==> FindFirst(items, pick, TransferStacksWith(items[i], i, to))
    requires !MovesAll(items, i, quantity) ==> pick.None? && newId !in items
    ensures MapSum(Transfer(items, i, quantity, to, into, newId, pick), weight)
         == MapSum(items, weight)
          + (if counted(items[i].definition, to) then MovedUnits(items, i, quantity) else 0)
          - (if counted(items[i].definition, items[i].stash) then MovedUnits(items, i, quantity) else 0)
  {
    var source := items[i];
    if !MovesAll(items, i, quantity) {
      BreakOffSum(items, i, quantity, newId, Part(source, quantity, to, if into.Some? then into.value else None), weight, counted);
    } else if pick.Some? {
      assert TransferStacksWith(source, i, to)(pick.value, items[pick.value]);
      MergeSum(items, i, pick.value, weight, counted);
    } else {
      SumWrite(items, weight, i, Moved(source, to, into));
    }
  }

  lemma BreakOffSum(items: Items, i: ItemId, n: int, newId: ItemId, row: Item,
                    weight: (ItemId, Item) -> int, counted: (DefId, StashId) -> bool)
    requires i in items && newId !in items && CountsQuantity(weight, counted)
    ensures MapSum(Grow(items, i, -n)[newId := row], weight)
         == MapSum(items, weight) + weight(newId, row) - if counted(items[i].definition, items[i].stash) then n else 0
  {
    GrowSum(items, i, -n, weight, counted);
    SumWrite(Grow(items, i, -n), weight, newId, row);
  }

  lemma MergeSum(items: Items, i: ItemId, j: ItemId, weight: (ItemId, Item) -> int, counted: (DefId, StashId) -> bool)
    requires i in items && j in items && i != j && CountsQuantity(weight, counted)
    ensures MapSum(Grow(items, j, items[i].quantity) - {i}, weight)
         == MapSum(items, weight)
          + (if counted(items[j].definition, items[j].stash) then items[i].quantity else 0)
          - (if counted(items[i].definition, items[i].stash) then items[i].quantity else 0)
  {
    GrowSum(items, j, items[i].quantity, weight, counted);
    SumTakeOut(Grow(items, j, items[i].quantity), weight, i);
  }

  /** How many units of a definition the given stashes hold. */
  ghost function UnitsIn(items: Items, d: DefId, stashes: set<StashId>): int {
    MapSum(items, InStashes(d, stashes))
  }

  ghost function InStashes(d: DefId, stashes: set<StashId>): (ItemId, Item) -> int {
    (i: ItemId, item: Item) => if item.definition == d && item.stash in stashes then item.quantity else 0
  }

  /** After a sweep every set of stashes holds what it held, with the swept stashes' units in `to`. */
  lemma SweepUnits(items: Items, from: set<StashId>, to: StashId, d: DefId, stashes: set<StashId>)
    ensures UnitsIn(Sweep(items, from, to), d, stashes)
         == UnitsIn(items, d, if to in stashes then stashes + from else stashes - from)
  {
    var before := if to in stashes then stashes + from else stashes - from;
    var swept := Sweep(items, from, to);
    forall i | i in items ensures InStashes(d, stashes)(i, swept[i]) == InStashes(d, before)(i, items[i]) {
    }
    SumSame(swept, InStashes(d, stashes), items, InStashes(d, before));
  }

  lemma SplitSum(items: Items, i: ItemId, quantity: int, newId: ItemId,
                 weight: (ItemId, Item) -> int, counted: (DefId, StashId) -> bool)
    requires i in items && newId !in items && CountsQuantity(weight, counted)
    ensures MapSum(Split(items, i, quantity, newId), weight) == MapSum(items, weight)
  {
    BreakOffSum(items, i, quantity, newId, Part(items[i], quantity, items[i].stash, items[i].container), weight, counted);
  }

  lemma SetFlagSum(items: Items, i: ItemId, flag: Flag, newId: ItemId,
                   weight: (ItemId, Item) -> int, counted: (DefId, StashId) -> bool)
    requires i in items && CountsQuantity(weight, counted)
    requires items[i].quantity > 1 ==> newId !in items
    ensures MapSum(SetFlag(items, i, flag, newId), weight) == MapSum(items, weight)
  {
    if items[i].quantity <= 1 {
      SumWrite(items, weight, i, WithFlag(items[i], flag, true));
    } else {
      var unit := WithFlag(Unflagged(items[i]), flag, true).(quantity := 1);
      assert unit.quantity == 1 && unit.definition == items[i].definition && unit.stash == items[i].stash;
      BreakOffSum(items, i, 1, newId, unit, weight, counted);
      assert weight(newId, unit) == if counted(unit.definition, unit.stash) then 1 else 0;
    }
  }

  lemma ClearFlagSum(items: Items, i: ItemId, flag: Flag, pick: Option<ItemId>,
                     weight: (ItemId, Item) -> int, counted: (DefId, StashId) -> bool)
    requires i in items && CountsQuantity(weight, counted)
    requires RestackPick(items, i, WithFlag(items[i], flag, false), pick)
    ensures MapSum(ClearFlag(items, i, flag, pick), weight) == MapSum(items, weight)
  {
    var patched := WithFlag(items[i], flag, false);
    if !Mundane(patched) || pick.None? {
      SumWrite(items, weight, i, patched);
    } else {
      SumTakeOut(items, weight, i);
      GrowSum(items - {i}, pick.value, patched.quantity, weight, counted);
    }
  }

  // ---------------------------------------------------------------- restacking undoes splitting off

  /** A later change of a flag on a row; clearing one comes with the row `findFirst` picked. */
  datatype FlagStep = SetIt(flag: Flag) | ClearIt(flag: Flag, pick: Option<ItemId>)

  function Flip(item: Item, step: FlagStep): Item {
    WithFlag(item, step.flag, step.SetIt?)
  }

  ghost predicate CanFlip(items: Items, i: ItemId, step: FlagStep) {
    && i in items
    && (step.SetIt? ==> items[i].quantity == 1)
    && (step.ClearIt? ==> RestackPick(items, i, Flip(items[i], step), step.pick))
  }

  ghost function FlipRow(items: Items, i: ItemId, step: FlagStep): Items
    requires CanFlip(items, i, step)
  {
    if step.SetIt? then SetFlag(items, i, step.flag, i) else ClearFlag(items, i, step.flag, step.pick)
  }

  /** Row `i` can be flipped through all the steps, and keeps some flag until after the last. */
  ghost predicate Flagged(items: Items, i: ItemId, steps: seq<FlagStep>)
    decreases |steps|
  {
    steps != [] ==>
      && CanFlip(items, i, steps[0])
      && (|steps| > 1 ==> !Mundane(Flip(items[i], steps[0])))
      && Flagged(FlipRow(items, i, steps[0]), i, steps[1..])
  }

  ghost function FlipAll(items: Items, i: ItemId, steps: seq<FlagStep>): Items
    requires Flagged(items, i, steps)
    decreases |steps|
  {
    if steps == [] then items else FlipAll(FlipRow(items, i, steps[0]), i, steps[1..])
  }

  /** The flags row `i` has after all the steps, if nothing happens to the row itself. */
  function FlipItem(item: Item, steps: seq<FlagStep>): Item
    decreases |steps|
  {
    if steps == [] then item else FlipItem(Flip(item, steps[0]), steps[1..])
  }

  /** `i` is a mundane stack, and the only mundane row of its stash, definition, notes and container. */
  ghost predicate SoleStack(items: Items, i: ItemId) {
    && i in items && Mundane(items[i]) && items[i].quantity >= 2
    && (forall j :: j in items ==> !RestacksWith(items[i], i)(j, items[j]))
  }

  /** One unit of stack `i` stands apart as row `j`, carrying flags. */
  ghost predicate UnitApart(items: Items, i: ItemId, j: ItemId, now: Items) {
    && SoleStack(items, i) && j !in items && j in now
    && now == Grow(items, i, -1)[j := now[j]]
    && Unflagged(now[j]) == items[i].(quantity := 1)
  }

  lemma SplitOff(items: Items, i: ItemId, flag: Flag, j: ItemId)
    requires SoleStack(items, i) && j !in items
    ensures var now := SetFlag(items, i, flag, j); UnitApart(items, i, j, now) && !Mundane(now[j])
  {
  }

  lemma FlipKeepsApart(items: Items, i: ItemId, j: ItemId, now: Items, step: FlagStep)
    requires UnitApart(items, i, j, now) && CanFlip(now, j, step) && !Mundane(Flip(now[j], step))
    ensures var then' := FlipRow(now, j, step); UnitApart(items, i, j, then') && then'[j] == Flip(now[j], step)
  {
    var unit := Flip(now[j], step);
    assert FlipRow(now, j, step) == now[j := unit];
    assert Unflagged(unit) == Unflagged(now[j]);
  }

  /** Clearing the last flag puts the unit back. */
  lemma LastFlagCleared(items: Items, i: ItemId, j: ItemId, now: Items, step: FlagStep)
    requires UnitApart(items, i, j, now) && CanFlip(now, j, step) && Mundane(Flip(now[j], step))
    ensures FlipRow(now, j, step) == items
  {
    var unit := Flip(now[j], step);
    assert step.ClearIt? && i != j;
    assert Unflagged(unit) == items[i].(quantity := 1);
    assert now[i] == items[i].(quantity := items[i].quantity - 1);
    assert RestacksWith(unit, j)(i, now[i]) by {
      assert now[i].stash == unit.stash && now[i].definition == unit.definition;
      assert now[i].notes == unit.notes && now[i].container == unit.container;
      assert Mundane(now[i]);
    }
    var k := step.pick.value;
    assert RestacksWith(unit, j)(k, now[k]);
    assert k != j && (k == i || now[k] == items[k]);
    assert k == i;
    assert now - {j} == Grow(items, i, -1);
  }

  lemma {:induction false} FlipsUndone(items: Items, i: ItemId, j: ItemId, now: Items, steps: seq<FlagStep>)
    requires UnitApart(items, i, j, now) && !Mundane(now[j])
    requires Flagged(now, j, steps) && Mundane(FlipItem(now[j], steps))
    ensures FlipAll(now, j, steps) == items
    decreases |steps|
  {
    assert steps != [];
    if |steps| == 1 {
      assert steps[1..] == [];
      assert FlipItem(now[j], steps) == FlipItem(Flip(now[j], steps[0]), []) == Flip(now[j], steps[0]);
      LastFlagCleared(items, i, j, now, steps[0]);
    } else {
      FlipKeepsApart(items, i, j, now, steps[0]);
      FlipsUndone(items, i, j, FlipRow(now, j, steps[0]), steps[1..]);
    }
  }

  /**
   * Restacking undoes the automatic split: a unit is split off a mundane stack to carry a flag, its
   * flags are set and cleared in any order, and when the last one is cleared the table is as before.
   */
  lemma RestackUndoesSplit(items: Items, i: ItemId, flag: Flag, newId: ItemId, steps: seq<FlagStep>)
    requires SoleStack(items, i) && newId !in items
    requires var split := SetFlag(items, i, flag, newId);
      Flagged(split, newId, steps) && Mundane(FlipItem(split[newId], steps))
    ensures FlipAll(SetFlag(items, i, flag, newId), newId, steps) == items
  {
    SplitOff(items, i, flag, newId);
    FlipsUndone(items, i, newId, SetFlag(items, i, flag, newId), steps);
  }

  /** Restacking only ever merges a row without flags and charges into another such row; all others stay. */
  lemma OnlyMundaneMerged(items: Items, i: ItemId, flag: Flag, pick: Option<ItemId>, j: ItemId)
    requires i in items && j in items
    requires RestackPick(items, i, WithFlag(items[i], flag, false), pick)
    ensures var now := ClearFlag(items, i, flag, pick);
      && (j !in now ==> j == i && Mundane(WithFlag(items[i], flag, false)))
      && (j in now && j != i && now[j] != items[j] ==> pick == Some(j) && Mundane(items[j]) && i !in now)
  {
    if pick.Some? {
      assert RestacksWith(WithFlag(items[i], flag, false), i)(pick.value, items[pick.value]);
    }
  }
}
