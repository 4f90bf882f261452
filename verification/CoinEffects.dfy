/** What the coin actions leave in each stash, told without their steps. */
module CoinEffects {
  import opened Currency
  import opened Ledger
  import opened Tables
  import opened Wrappers
  import C = CoinRows

  /** How often the character whose Inventory a stash is, if any, is among those named. */
  function TimesNamed(characters: Characters, stashes: Stashes, named: seq<CharId>, s: StashId): nat
    requires s in stashes
  {
    var c := stashes[s].owner;
    if c.Some? && c.value in characters && characters[c.value].inventory == s then multiset(named)[c.value] else 0
  }

  /** How many coins of a denomination an action adds to a stash. */
  function CoinsGained(db: DB, a: CoinAction, s: StashId, d: Denom): int
    requires LegalOnCoins(db, a) && s in db.stashes
  {
    match a
    case CurrencyChange(t, delta) => if s == t then delta.Get(d) else 0
    case CurrencyTransfer(from, to, delta) => (if s == to then delta.Get(d) else 0) - (if s == from then delta.Get(d) else 0)
    case SplitEvenly(pool, named) =>
      var x := Currency.Split(db.holdings[pool], |named|);
      (if s == pool then x.remainder.Get(d) - db.holdings[pool].Get(d) else 0)
      + TimesNamed(db.characters, db.stashes, named, s) * x.share.Get(d)
  }

  lemma InventoryOwner(db: DB, c: CharId)
    requires Valid(db) && c in db.characters
    ensures var s := db.characters[c].inventory; s in db.stashes && db.stashes[s].owner == Some(c)
  {
    assert db.stashes[db.characters[c].inventory] == Stash(CharacterScope, true, Some(c), None);
  }

  lemma {:induction false} InventoryNamed(db: DB, named: seq<CharId>, s: StashId)
    requires Valid(db) && s in db.stashes
    requires forall n :: 0 <= n < |named| ==> named[n] in db.characters
    ensures multiset(Inventories(db.characters, named))[s] == TimesNamed(db.characters, db.stashes, named, s)
    decreases |named|
  {
    if named != [] {
      var k := |named| - 1;
      var front, last := named[..k], named[k];
      InventoryNamed(db, front, s);
      InventoryOwner(db, last);
      NamedSnoc(db.characters, named);
      assert named == front + [last];
    }
  }

  lemma NamedSnoc(characters: Characters, named: seq<CharId>)
    requires named != [] && forall n :: 0 <= n < |named| ==> named[n] in characters
    ensures var k := |named| - 1;
      Inventories(characters, named) == Inventories(characters, named[..k]) + [characters[named[k]].inventory]
  {
  }

  lemma SplitEachNamed(db: DB, pool: StashId, named: seq<CharId>, s: StashId, d: Denom)
    requires Valid(db) && CanSplitEvenly(db, pool, named) && s in db.stashes
    ensures ApplyCoins(db, CoinAction.SplitEvenly(pool, named))[s].Get(d)
         == db.holdings[s].Get(d) + CoinsGained(db, CoinAction.SplitEvenly(pool, named), s, d)
  {
    RecipientsHold(db, pool, named);
    C.SplitEach(db.holdings, pool, Inventories(db.characters, named), s, d);
    InventoryNamed(db, named, s);
  }

  lemma SplitStashes(db: DB, pool: StashId, named: seq<CharId>)
    requires Valid(db) && CanSplitEvenly(db, pool, named)
    ensures ApplyCoins(db, CoinAction.SplitEvenly(pool, named)).Keys == db.stashes.Keys
  {
    RecipientsHold(db, pool, named);
  }

  /** Each stash gains just that, coin by coin, and none is added or dropped. */
  lemma CoinActionEach(db: DB, a: CoinAction, s: StashId, d: Denom)
    requires Valid(db) && LegalOnCoins(db, a)
    ensures ApplyCoins(db, a).Keys == db.stashes.Keys
    ensures s in db.stashes ==> ApplyCoins(db, a)[s].Get(d) == db.holdings[s].Get(d) + CoinsGained(db, a, s, d)
  {
    if a.SplitEvenly? {
      SplitStashes(db, a.pool, a.recipients);
      if s in db.stashes {
        SplitEachNamed(db, a.pool, a.recipients, s, d);
      }
    }
  }
}
