/** The holding table's writes (apps/server/src/sync/persistor.ts), on the rows alone. */
module CoinRows {
  import opened Currency
  import opened FloorDivision
  import opened MapSums
  import opened Tables

  function Deposit(holdings: Holdings, s: StashId, delta: Coins): Holdings
    requires s in holdings
  {
    holdings[s := Add(holdings[s], delta)]
  }

  function Withdraw(holdings: Holdings, s: StashId, delta: Coins): Holdings
    requires s in holdings
  {
    holdings[s := Minus(holdings[s], delta)]
  }

  function CurrencyTransfer(holdings: Holdings, from: StashId, to: StashId, delta: Coins): Holdings
    requires from in holdings && to in holdings
  {
    Deposit(Withdraw(holdings, from, delta), to, delta)
  }

  // ---------------------------------------------------------------- sweeping stashes

  ghost function CoinOf(d: Denom): (StashId, Coins) -> int {
    (s: StashId, c: Coins) => c.Get(d)
  }

  /** What the given stashes hold together. */
  ghost function Gathered(holdings: Holdings, from: set<StashId>): Coins {
    var chosen := Restrict(holdings, from);
    Coins(MapSum(chosen, CoinOf(CP)), MapSum(chosen, CoinOf(SP)), MapSum(chosen, CoinOf(EP)),
          MapSum(chosen, CoinOf(GP)), MapSum(chosen, CoinOf(PP)))
  }

  /** Rolls the given stashes' coins into another's holding and drops theirs. */
  ghost function Sweep(holdings: Holdings, from: set<StashId>, to: StashId): Holdings
    requires to in holdings && to !in from
  {
    Deposit(holdings - from, to, Gathered(holdings, from))
  }

  /** Taking one stash out of those to be summed. */
  lemma GatherOne(holdings: Holdings, from: set<StashId>, s: StashId)
    requires s in from
    ensures Gathered(holdings, from) == Add(if s in holdings then holdings[s] else NO_COINS, Gathered(holdings, from - {s}))
  {
    var chosen, rest := Restrict(holdings, from), Restrict(holdings, from - {s});
    assert rest == chosen - {s};
    if s in holdings {
      forall d: Denom ensures MapSum(chosen, CoinOf(d)) == holdings[s].Get(d) + MapSum(rest, CoinOf(d)) {
        SumTakeOut(chosen, CoinOf(d), s);
      }
    } else {
      assert rest == chosen;
    }
  }

  lemma GatherNone(holdings: Holdings)
    ensures Gathered(holdings, {}) == NO_COINS
  {
    assert Restrict(holdings, {}) == map[];
  }

  ghost function Gatherer(holdings: Holdings): set<StashId> -> Coins {
    (from: set<StashId>) => Gathered(holdings, from)
  }

  /** `total` is nothing for no stashes, and otherwise can be added up stash by stash. */
  ghost predicate Totals(holdings: Holdings, total: set<StashId> -> Coins) {
    && total({}) == NO_COINS
    && (forall from, s {:trigger total(from - {s})} :: s in from ==> total(from) == Add(if s in holdings then holdings[s] else NO_COINS, total(from - {s})))
  }

  lemma TotalStep(holdings: Holdings, total: set<StashId> -> Coins, from: set<StashId>, s: StashId)
    requires Totals(holdings, total) && s in from
    ensures total(from) == Add(if s in holdings then holdings[s] else NO_COINS, total(from - {s}))
  {
  }

  lemma GatheredTotals(holdings: Holdings)
    ensures Totals(holdings, Gatherer(holdings))
  {
    GatherNone(holdings);
    var total := Gatherer(holdings);
    forall from, s | s in from
      ensures total(from) == Add(if s in holdings then holdings[s] else NO_COINS, total(from - {s}))
    {
      GatherOne(holdings, from, s);
    }
  }

  // ---------------------------------------------------------------- splitting evenly

  function Credit(holdings: Holdings, to: seq<StashId>, share: Coins): (r: Holdings)
    requires forall i :: 0 <= i < |to| ==> to[i] in holdings
    ensures r.Keys == holdings.Keys
  {
    if to == [] then holdings
    else Deposit(Credit(holdings, to[..|to| - 1], share), to[|to| - 1], share)
  }

  /** Recipients may repeat, and the pool may be one of them. */
  function SplitAmong(holdings: Holdings, pool: StashId, to: seq<StashId>): Holdings
    requires pool in holdings && to != []
    requires forall i :: 0 <= i < |to| ==> to[i] in holdings
  {
    var d := Split(holdings[pool], |to|);
    Credit(holdings[pool := d.remainder], to, d.share)
  }

  // ---------------------------------------------------------------- sums

  /** The weight of a holding counts its coins of one denomination, if its stash is counted at all. */
  ghost predicate CountsCoin(weight: (StashId, Coins) -> int, counted: StashId -> bool, d: Denom) {
    forall s, c :: weight(s, c) == if counted(s) then c.Get(d) else 0
  }

  lemma WriteSum(holdings: Holdings, s: StashId, c: Coins,
                 weight: (StashId, Coins) -> int, counted: StashId -> bool, d: Denom)
    requires s in holdings && CountsCoin(weight, counted, d)
    ensures MapSum(holdings[s := c], weight)
         == MapSum(holdings, weight) + if counted(s) then c.Get(d) - holdings[s].Get(d) else 0
  {
    SumWrite(holdings, weight, s, c);
  }

  /** A transfer takes the coins from where they were and puts them where they go. */
  lemma CurrencyTransferSum(holdings: Holdings, from: StashId, to: StashId, delta: Coins,
                            weight: (StashId, Coins) -> int, counted: StashId -> bool, d: Denom)
    requires from in holdings && to in holdings && CountsCoin(weight, counted, d)
    ensures MapSum(CurrencyTransfer(holdings, from, to, delta), weight)
         == MapSum(holdings, weight) + (if counted(to) then delta.Get(d) else 0) - (if counted(from) then delta.Get(d) else 0)
  {
    WriteSum(holdings, from, Minus(holdings[from], delta), weight, counted, d);
    var less := Withdraw(holdings, from, delta);
    WriteSum(less, to, Add(less[to], delta), weight, counted, d);
  }

  /** How many coins of a denomination the given stashes hold. */
  ghost function CoinsIn(holdings: Holdings, d: Denom, stashes: set<StashId>): int {
    MapSum(holdings, HeldIn(d, stashes))
  }

  ghost function HeldIn(d: Denom, stashes: set<StashId>): (StashId, Coins) -> int {
    (s: StashId, c: Coins) => if s in stashes then c.Get(d) else 0
  }

  /** After a sweep every set of stashes holds what it held, with the swept stashes' coins in `to`. */
  lemma SweepCoins(holdings: Holdings, from: set<StashId>, to: StashId, d: Denom, stashes: set<StashId>)
    requires to in holdings && to !in from && from <= holdings.Keys
    ensures CoinsIn(Sweep(holdings, from, to), d, stashes)
         == CoinsIn(holdings, d, if to in stashes then stashes + from else stashes - from)
  {
    var before := if to in stashes then stashes + from else stashes - from;
    var counted := (s: StashId) => s in before;
    var swept := Sweep(holdings, from, to);
    SweepSum(holdings, from, to, HeldIn(d, before), counted, d);
    forall s | s in swept ensures HeldIn(d, stashes)(s, swept[s]) == HeldIn(d, before)(s, swept[s]) {
      assert s !in from;
    }
    SumSame(swept, HeldIn(d, stashes), swept, HeldIn(d, before));
  }

  lemma SweepSum(holdings: Holdings, from: set<StashId>, to: StashId,
                 weight: (StashId, Coins) -> int, counted: StashId -> bool, d: Denom)
    requires to in holdings && to !in from && from <= holdings.Keys && CountsCoin(weight, counted, d)
    requires forall s :: s in from ==> counted(s) == counted(to)
    ensures MapSum(Sweep(holdings, from, to), weight) == MapSum(holdings, weight)
  {
    SumSplit(holdings, weight, from);
    GatheredSum(holdings, from, to, weight, counted, d);
    WriteSum(holdings - from, to, Add((holdings - from)[to], Gathered(holdings, from)), weight, counted, d);
  }

  lemma GatheredSum(holdings: Holdings, from: set<StashId>, to: StashId,
                    weight: (StashId, Coins) -> int, counted: StashId -> bool, d: Denom)
    requires CountsCoin(weight, counted, d)
    requires forall s :: s in from ==> counted(s) == counted(to)
    ensures MapSum(Restrict(holdings, from), weight) == if counted(to) then Gathered(holdings, from).Get(d) else 0
  {
    var chosen := Restrict(holdings, from);
    GatheredGet(holdings, from, d);
    forall s | s in chosen ensures weight(s, chosen[s]) == if counted(to) then CoinOf(d)(s, chosen[s]) else 0 {
      assert s in from;
      assert counted(s) == counted(to);
    }
    if counted(to) {
      SumSame(chosen, weight, chosen, CoinOf(d));
    } else {
      SumZero(chosen, weight);
    }
  }

  lemma GatheredGet(holdings: Holdings, from: set<StashId>, d: Denom)
    ensures Gathered(holdings, from).Get(d) == MapSum(Restrict(holdings, from), CoinOf(d))
  {
  }

  lemma {:induction false} CreditSum(holdings: Holdings, to: seq<StashId>, share: Coins,
                                     weight: (StashId, Coins) -> int, counted: StashId -> bool, d: Denom, all: bool)
    requires forall i :: 0 <= i < |to| ==> to[i] in holdings && counted(to[i]) == all
    requires CountsCoin(weight, counted, d)
    ensures MapSum(Credit(holdings, to, share), weight)
         == MapSum(holdings, weight) + if all then |to| * share.Get(d) else 0
  {
    if to != [] {
      var k := |to| - 1;
      CreditSum(holdings, to[..k], share, weight, counted, d, all);
      DepositSum(Credit(holdings, to[..k], share), to[k], share, weight, counted, d);
      OneMore(k, share.Get(d));
    }
  }

  lemma DepositSum(holdings: Holdings, s: StashId, delta: Coins,
                   weight: (StashId, Coins) -> int, counted: StashId -> bool, d: Denom)
    requires s in holdings && CountsCoin(weight, counted, d)
    ensures MapSum(Deposit(holdings, s, delta), weight) == MapSum(holdings, weight) + if counted(s) then delta.Get(d) else 0
  {
    WriteSum(holdings, s, Add(holdings[s], delta), weight, counted, d);
  }

  lemma OneMore(k: int, x: int)
    ensures (k + 1) * x == k * x + x
  {
  }

  /** Per denomination an even split exchanges the pool's coins for the shares and the remainder. */
  lemma SplitSum(holdings: Holdings, pool: StashId, to: seq<StashId>,
                 weight: (StashId, Coins) -> int, counted: StashId -> bool, d: Denom)
    requires pool in holdings && to != [] && CountsCoin(weight, counted, d)
    requires forall i :: 0 <= i < |to| ==> to[i] in holdings && counted(to[i]) == counted(pool)
    ensures MapSum(SplitAmong(holdings, pool, to), weight)
         == MapSum(holdings, weight) + if counted(pool) then Exchange(holdings[pool], |to|).Get(d) else 0
  {
    var x := Split(holdings[pool], |to|);
    WriteSum(holdings, pool, x.remainder, weight, counted, d);
    CreditSum(holdings[pool := x.remainder], to, x.share, weight, counted, d, counted(pool));
  }

  /** A stash has been credited the share as often as it is named. */
  lemma {:induction false} CreditEach(holdings: Holdings, to: seq<StashId>, share: Coins, s: StashId, d: Denom)
    requires forall i :: 0 <= i < |to| ==> to[i] in holdings
    requires s in holdings
    ensures Credit(holdings, to, share)[s].Get(d) == holdings[s].Get(d) + multiset(to)[s] * share.Get(d)
  {
    if to != [] {
      var k := |to| - 1;
      CreditEach(holdings, to[..k], share, s, d);
      assert to == to[..k] + [to[k]];
      OneMore(multiset(to[..k])[s], share.Get(d));
    }
  }

  /**
   * Stash by stash: the pool is left with the remainder, and each stash gets a share for every time
   * it is named, the pool among them.
   */
  lemma SplitEach(holdings: Holdings, pool: StashId, to: seq<StashId>, s: StashId, d: Denom)
    requires pool in holdings && to != [] && s in holdings
    requires forall i :: 0 <= i < |to| ==> to[i] in holdings
    ensures var x := Split(holdings[pool], |to|);
      SplitAmong(holdings, pool, to)[s].Get(d)
      == (if s == pool then x.remainder.Get(d) else holdings[s].Get(d)) + multiset(to)[s] * x.share.Get(d)
  {
    var x := Split(holdings[pool], |to|);
    CreditEach(holdings[pool := x.remainder], to, x.share, s, d);
  }

  function Times(n: int, c: Coins): Coins {
    Coins(n * c.cp, n * c.sp, n * c.ep, n * c.gp, n * c.pp)
  }

  /** The change of the coins in circulation when a pool is split n ways. */
  function Exchange(pool: Coins, n: int): Coins
    requires n >= 1
  {
    var x := Split(pool, n);
    Minus(Add(Times(n, x.share), x.remainder), pool)
  }

  /** It is worth nothing. */
  lemma ExchangeWorthless(pool: Coins, n: int)
    requires n >= 1
    ensures ToCopper(Exchange(pool, n)) == 0
  {
    var share := Split(pool, n).share;
    SplitExact(pool, n);
    TimesWorth(n, share);
  }

  /** The shares and the remainder are the pool coin by coin exactly when every denomination but copper divides evenly. */
  lemma ExchangeNone(pool: Coins, n: int)
    requires n >= 1
    ensures Exchange(pool, n) == NO_COINS
       <==> pool.pp % n == 0 && pool.gp % n == 0 && pool.ep % n == 0 && pool.sp % n == 0
  {
    var t0, t1, t2, t3, t4 := OnTable(pool, n, 0), OnTable(pool, n, 1), OnTable(pool, n, 2),
                              OnTable(pool, n, 3), OnTable(pool, n, 4);
    DivMod(t0, n);
    DivMod(t1, n);
    DivMod(t2, n);
    DivMod(t3, n);
    DivMod(t4, n);
    assert t0 == pool.pp && t1 == pool.gp + t0 % n * 10 && t2 == pool.ep + t1 % n * 2;
    assert t3 == pool.sp + t2 % n * 5 && t4 == pool.cp + t3 % n * 10;
    var x := Exchange(pool, n);
    assert x.pp == -(t0 % n) && x.gp == t0 % n * 10 - t1 % n && x.ep == t1 % n * 2 - t2 % n;
    assert x.sp == t2 % n * 5 - t3 % n && x.cp == t3 % n * 10;
  }

  /** One gold piece between two turns into two electrum. */
  lemma GoldBetweenTwo(pool: Coins, n: int)
    requires pool == Coins(0, 0, 0, 1, 0) && n == 2
    ensures Split(pool, n).share == Coins(0, 0, 1, 0, 0) && Exchange(pool, n) != NO_COINS
  {
    ExchangeNone(pool, n);
    OddGold(pool, n);
  }

  lemma OddGold(pool: Coins, n: int)
    requires n == 2 && pool.pp == 0 && pool.gp == 1 && pool.ep == 0 && pool.sp == 0 && pool.cp == 0
    ensures Split(pool, n).share == Coins(0, 0, 1, 0, 0)
  {
    var t1, t2, t3, t4 := OnTable(pool, n, 1), OnTable(pool, n, 2), OnTable(pool, n, 3), OnTable(pool, n, 4);
    assert OnTable(pool, n, 0) == 0 && t1 == 1 + 0 % n * 10;
    DivModUnique(0, n, 0, 0);
    DivModUnique(1, n, 0, 1);
    DivModUnique(2, n, 1, 0);
    assert t2 == 1 % n * 2 && t3 == 2 % n * 5 && t4 == 0 % n * 10;
  }

  lemma TimesWorth(n: int, c: Coins)
    ensures ToCopper(Times(n, c)) == n * ToCopper(c)
  {
    assert n * ToCopper(c) == n * c.cp + n * (c.sp * 10) + n * (c.ep * 50) + n * (c.gp * 100) + n * (c.pp * 1000);
  }

  // ---------------------------------------------------------------- no holding goes negative

  ghost predicate Solvent(holdings: Holdings) {
    forall s :: s in holdings ==> holdings[s].NonNegative()
  }

  lemma SweepSolvent(holdings: Holdings, from: set<StashId>, to: StashId)
    requires to in holdings && to !in from && Solvent(holdings)
    ensures Solvent(Sweep(holdings, from, to))
  {
    var chosen := Restrict(holdings, from);
    forall d: Denom ensures MapSum(chosen, CoinOf(d)) >= 0 {
      forall s | s in chosen ensures CoinOf(d)(s, chosen[s]) >= 0 {
        assert holdings[s].NonNegative();
      }
      SumNonNegative(chosen, CoinOf(d));
    }
  }

  lemma {:induction false} CreditSolvent(holdings: Holdings, to: seq<StashId>, share: Coins)
    requires forall i :: 0 <= i < |to| ==> to[i] in holdings
    requires Solvent(holdings) && share.NonNegative()
    ensures Solvent(Credit(holdings, to, share))
  {
    if to != [] {
      CreditSolvent(holdings, to[..|to| - 1], share);
    }
  }

  lemma SplitSolvent(holdings: Holdings, pool: StashId, to: seq<StashId>)
    requires pool in holdings && to != [] && Solvent(holdings)
    requires forall i :: 0 <= i < |to| ==> to[i] in holdings
    ensures Solvent(SplitAmong(holdings, pool, to))
  {
    var x := Split(holdings[pool], |to|);
    SplitNonNegative(holdings[pool], |to|);
    CreditSolvent(holdings[pool := x.remainder], to, x.share);
  }

  lemma SplitNonNegative(pool: Coins, n: int)
    requires n >= 1 && pool.NonNegative()
    ensures Split(pool, n).share.NonNegative() && Split(pool, n).remainder.NonNegative()
  {
    forall d: Denom ensures Split(pool, n).share.Get(d) >= 0 {
      SplitAtLeastFloor(pool, n, d);
      DivMonotone(0, pool.Get(d), n);
    }
    var share := Split(pool, n).share;
    assert share.Get(CP) >= 0 && share.Get(SP) >= 0 && share.Get(EP) >= 0 && share.Get(GP) >= 0 && share.Get(PP) >= 0;
    SplitExact(pool, n);
    DivMod(ToCopper(pool), n);
  }
}
