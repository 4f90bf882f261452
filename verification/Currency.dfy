/** Coin arithmetic over the five denominations (packages/rules/src/currency.ts). */
module Currency {
  import opened FloorDivision
  import opened Wrappers

  datatype Denom = CP | SP | EP | GP | PP

  /** A holding, or a signed delta between holdings. */
  datatype Coins = Coins(cp: int, sp: int, ep: int, gp: int, pp: int) {
    function Get(d: Denom): int {
      match d
      case CP => cp
      case SP => sp
      case EP => ep
      case GP => gp
      case PP => pp
    }

    function Set(d: Denom, n: int): Coins {
      match d
      case CP => this.(cp := n)
      case SP => this.(sp := n)
      case EP => this.(ep := n)
      case GP => this.(gp := n)
      case PP => this.(pp := n)
    }

    predicate NonNegative() {
      cp >= 0 && sp >= 0 && ep >= 0 && gp >= 0 && pp >= 0
    }
  }

  const NO_COINS := Coins(0, 0, 0, 0, 0)

  /** The denominations in walking order, largest first. */
  function Nth(i: nat): Denom
    requires i < 5
  {
    if i == 0 then PP else if i == 1 then GP else if i == 2 then EP else if i == 3 then SP else CP
  }

  function Rank(d: Denom): nat {
    match d
    case PP => 0
    case GP => 1
    case EP => 2
    case SP => 3
    case CP => 4
  }

  function Multiplier(d: Denom): int {
    match d
    case CP => 1
    case SP => 10
    case EP => 50
    case GP => 100
    case PP => 1000
  }

  function ToCopper(c: Coins): int {
    c.cp + c.sp * 10 + c.ep * 50 + c.gp * 100 + c.pp * 1000
  }

  function Add(a: Coins, b: Coins): Coins {
    Coins(a.cp + b.cp, a.sp + b.sp, a.ep + b.ep, a.gp + b.gp, a.pp + b.pp)
  }

  function Minus(a: Coins, b: Coins): Coins {
    Coins(a.cp - b.cp, a.sp - b.sp, a.ep - b.ep, a.gp - b.gp, a.pp - b.pp)
  }

  // ---------------------------------------------------------------- fromCopper

  /** No denomination but the largest holds enough to be changed upwards. */
  predicate Canonical(c: Coins) {
    c.NonNegative() && c.gp < 10 && c.ep < 2 && c.sp < 5 && c.cp < 10
  }

  function CoinCount(c: Coins): int {
    c.cp + c.sp + c.ep + c.gp + c.pp
  }

  /** What is left to change when the walk reaches the i-th denomination. */
  function Left(n: int, i: nat): int
    requires i < 5
  {
    if i == 0 then n else Left(n, i - 1) % Multiplier(Nth(i - 1))
  }

  /** The purse `FromCopper` computes. */
  function Change(n: int): Coins {
    Coins(Left(n, 4), Left(n, 3) / 10, Left(n, 2) / 50, Left(n, 1) / 100, Left(n, 0) / 1000)
  }

  method FromCopper(n: int) returns (r: Result<Coins>)
    ensures r.Ok? <==> n >= 0
    ensures r.Ok? ==> r.value == Change(n)
  {
    if n < 0 {
      return Err("negative cp");
    }
    var remaining, result := n, NO_COINS;
    for i := 0 to 5
      invariant i < 5 ==> remaining == Left(n, i)
      invariant forall d: Denom :: Rank(d) < i ==> result.Get(d) == Change(n).Get(d)
    {
      var m := Multiplier(Nth(i));
      var count := remaining / m;
      result := result.Set(Nth(i), count);
      remaining := remaining - count * m;
      assert remaining == Left(n, i) % m;
    }
    SameCoins(result, Change(n));
    r := Ok(result);
  }

  lemma SameCoins(a: Coins, b: Coins)
    requires forall d: Denom :: a.Get(d) == b.Get(d)
    ensures a == b
  {
    assert a.Get(CP) == b.Get(CP) && a.Get(SP) == b.Get(SP) && a.Get(EP) == b.Get(EP);
    assert a.Get(GP) == b.Get(GP) && a.Get(PP) == b.Get(PP);
  }

  /** Change is worth what it changes, and is canonical. */
  lemma ChangeExact(n: nat)
    ensures ToCopper(Change(n)) == n
    ensures Canonical(Change(n))
  {
    assert Left(n, 1) == n % 1000 && Left(n, 2) == Left(n, 1) % 100;
    assert Left(n, 3) == Left(n, 2) % 50 && Left(n, 4) == Left(n, 3) % 10;
  }

  /** A purse survives the round trip through copper exactly when it is canonical. */
  lemma ChangeUnique(c: Coins)
    requires c.NonNegative()
    ensures Change(ToCopper(c)) == c <==> Canonical(c)
  {
    ChangeExact(ToCopper(c));
    if Canonical(c) {
      CanonicalByValue(c, Change(ToCopper(c)));
    }
  }

  lemma CanonicalByValue(a: Coins, b: Coins)
    requires Canonical(a) && Canonical(b) && ToCopper(a) == ToCopper(b)
    ensures a == b
  {
    assert a.cp - b.cp == 10 * (b.sp - a.sp + 5 * (b.ep - a.ep) + 10 * (b.gp - a.gp) + 100 * (b.pp - a.pp));
    assert a.sp - b.sp == 5 * (b.ep - a.ep + 2 * (b.gp - a.gp) + 20 * (b.pp - a.pp));
    assert a.ep - b.ep == 2 * (b.gp - a.gp + 10 * (b.pp - a.pp));
  }

  /** Every other purse of the same worth has strictly more coins. */
  lemma {:induction false} ChangeOptimal(c: Coins)
    requires c.NonNegative()
    ensures c == Change(ToCopper(c)) || CoinCount(Change(ToCopper(c))) < CoinCount(c)
    decreases CoinCount(c)
  {
    var better := Exchanged(c);
    ExchangedBetter(c);
    if better == c {
      ChangeUnique(c);
    } else {
      ChangeOptimal(better);
    }
  }

  /** Ten coppers for a silver, five silver for an electrum, and so on; the purse itself if no such exchange is left. */
  function Exchanged(c: Coins): Coins {
    if c.cp >= 10 then c.(cp := c.cp - 10, sp := c.sp + 1)
    else if c.sp >= 5 then c.(sp := c.sp - 5, ep := c.ep + 1)
    else if c.ep >= 2 then c.(ep := c.ep - 2, gp := c.gp + 1)
    else if c.gp >= 10 then c.(gp := c.gp - 10, pp := c.pp + 1)
    else c
  }

  lemma ExchangedBetter(c: Coins)
    requires c.NonNegative()
    ensures Exchanged(c).NonNegative() && ToCopper(Exchanged(c)) == ToCopper(c)
    ensures Exchanged(c) != c ==> CoinCount(Exchanged(c)) < CoinCount(c)
    ensures Exchanged(c) == c ==> Canonical(c)
  {
  }

  // ---------------------------------------------------------------- splitEvenly

  datatype Division = Division(share: Coins, remainder: Coins)

  /** How many coins of the next denomination one coin of the i-th is changed into. */
  function Factor(i: nat): int
    requires i < 4
  {
    Multiplier(Nth(i)) / Multiplier(Nth(i + 1))
  }

  /** What is on the table at the i-th denomination: the pool's own coins and the change from above. */
  function OnTable(pool: Coins, n: int, i: nat): int
    requires n >= 1 && i < 5
  {
    pool.Get(Nth(i)) + if i == 0 then 0 else OnTable(pool, n, i - 1) % n * Factor(i - 1)
  }

  function Split(pool: Coins, n: int): Division
    requires n >= 1
  {
    Division(
      Coins(OnTable(pool, n, 4) / n, OnTable(pool, n, 3) / n, OnTable(pool, n, 2) / n,
            OnTable(pool, n, 1) / n, OnTable(pool, n, 0) / n),
      NO_COINS.(cp := OnTable(pool, n, 4) % n))
  }

  method DealOut(qty: int, n: int) returns (each: int, leftover: int)
    requires n >= 1
    ensures each == qty / n && leftover == qty % n
  {
    each := qty / n;
    leftover := qty - each * n;
    DivMod(qty, n);
  }

  /** What is left of the i-th denomination goes on as coins of the next, or stays as copper. */
  function Carried(working: Coins, i: nat, leftover: int): Coins
    requires i < 5
  {
    if leftover == 0 then working
    else if i == 4 then working.(cp := leftover)
    else working.Set(Nth(i + 1), working.Get(Nth(i + 1)) + leftover * Factor(i))
  }

  /** The working pool and the share when the walk reaches the i-th denomination. */
  function Working(pool: Coins, n: int, i: nat): Coins
    requires n >= 1 && i <= 5
  {
    if i == 0 then pool
    else
      var w := Working(pool, n, i - 1);
      Carried(w.Set(Nth(i - 1), 0), i - 1, w.Get(Nth(i - 1)) % n)
  }

  function Shared(pool: Coins, n: int, i: nat): Coins
    requires n >= 1 && i <= 5
  {
    if i == 0 then NO_COINS
    else Shared(pool, n, i - 1).Set(Nth(i - 1), Working(pool, n, i - 1).Get(Nth(i - 1)) / n)
  }

  method SplitEvenly(pool: Coins, n: int) returns (r: Result<Division>)
    ensures r.Ok? <==> n >= 1
    ensures r.Ok? ==> r.value == Split(pool, n)
  {
    if n < 1 {
      return Err("n must be >= 1");
    }
    var working, share := pool, NO_COINS;
    for i := 0 to 5
      invariant working == Working(pool, n, i) && share == Shared(pool, n, i)
    {
      var d := Nth(i);
      var each, leftover := DealOut(working.Get(d), n);
      share := share.Set(d, each);
      working := working.Set(d, 0);
      if leftover != 0 {
        if i == 4 {
          working := working.(cp := leftover);
        } else {
          var next := Nth(i + 1);
          working := working.Set(next, working.Get(next) + leftover * Factor(i));
        }
      }
    }
    WalkedThrough(pool, n);
    r := Ok(Division(share, working));
  }

  lemma {:induction false} OnTheTable(pool: Coins, n: int, i: nat)
    requires n >= 1 && i < 5
    ensures Working(pool, n, i).Get(Nth(i)) == OnTable(pool, n, i)
    ensures forall d: Denom :: Rank(d) > i ==> Working(pool, n, i).Get(d) == pool.Get(d)
    ensures forall d: Denom :: Rank(d) < i ==> Working(pool, n, i).Get(d) == 0
  {
    if i > 0 {
      OnTheTable(pool, n, i - 1);
    }
  }

  lemma {:induction false} EachGets(pool: Coins, n: int, i: nat)
    requires n >= 1 && i <= 5
    ensures forall d: Denom :: Rank(d) < i ==> Shared(pool, n, i).Get(d) == OnTable(pool, n, Rank(d)) / n
  {
    if i > 0 {
      EachGets(pool, n, i - 1);
      OnTheTable(pool, n, i - 1);
    }
  }

  lemma WalkedThrough(pool: Coins, n: int)
    requires n >= 1
    ensures Division(Shared(pool, n, 5), Working(pool, n, 5)) == Split(pool, n)
  {
    EachGets(pool, n, 5);
    OnTheTable(pool, n, 4);
    var left := Working(pool, n, 5);
    assert left == Carried(Working(pool, n, 4).Set(CP, 0), 4, OnTable(pool, n, 4) % n);
    forall d: Denom ensures left.Get(d) == Split(pool, n).remainder.Get(d) {
      assert Rank(d) < 4 || d == CP;
    }
    SameCoins(left, Split(pool, n).remainder);
    SameCoins(Shared(pool, n, 5), Split(pool, n).share);
  }

  /**
   * Splitting is exact division in copper: n shares and the remainder are worth the pool, the
   * remainder is copper only and is the copper value modulo n, so each share is the floored n-th part.
   */
  lemma SplitExact(pool: Coins, n: int)
    requires n >= 1
    ensures var d := Split(pool, n);
      && n * ToCopper(d.share) + ToCopper(d.remainder) == ToCopper(pool)
      && d.remainder == NO_COINS.(cp := ToCopper(pool) % n)
      && ToCopper(d.share) == ToCopper(pool) / n
  {
    var d := Split(pool, n);
    var t0, t1, t2, t3, t4 := OnTable(pool, n, 0), OnTable(pool, n, 1), OnTable(pool, n, 2),
                              OnTable(pool, n, 3), OnTable(pool, n, 4);
    DivMod(t0, n);
    DivMod(t1, n);
    DivMod(t2, n);
    DivMod(t3, n);
    DivMod(t4, n);
    assert t1 == pool.gp + t0 % n * 10;
    assert t2 == pool.ep + t1 % n * 2;
    assert t3 == pool.sp + t2 % n * 5;
    assert t4 == pool.cp + t3 % n * 10;
    var worth := ToCopper(d.share);
    assert worth == t4 / n + 10 * (t3 / n) + 50 * (t2 / n) + 100 * (t1 / n) + 1000 * (t0 / n);
    assert n * worth == n * (t4 / n) + 10 * (n * (t3 / n)) + 50 * (n * (t2 / n))
                      + 100 * (n * (t1 / n)) + 1000 * (n * (t0 / n));
    DivModUnique(ToCopper(pool), n, worth, t4 % n);
  }

  /** What one coin of a denomination is broken into: coins of the next smaller one. */
  const BROKEN_INTO: seq<int> := [10, 2, 5, 10]

  /** Everybody gets as many coins of the i-th denomination as go round. */
  predicate DealtAt(pool: Coins, n: int, share: Coins, left: seq<int>, i: nat)
    requires i < 5 && |left| == 5
  {
    && 0 <= left[i] < n
    && n * share.Get(Nth(i)) + left[i] == pool.Get(Nth(i)) + if i == 0 then 0 else left[i - 1] * BROKEN_INTO[i - 1]
  }

  /**
   * `left` is what stays over at each denomination, from platinum down: it is broken into the next
   * one, and the last copper stays.
   */
  predicate Dealt(pool: Coins, n: int, d: Division, left: seq<int>) {
    && |left| == 5
    && (forall i: nat :: i < 5 ==> DealtAt(pool, n, d.share, left, i))
    && d.remainder == Coins(left[4], 0, 0, 0, 0)
  }

  /** Dealing from platinum down and breaking what is left over has one outcome, and that is it. */
  lemma SplitDealt(pool: Coins, n: int, d: Division)
    requires n >= 1
    ensures d == Split(pool, n) <==> exists left :: Dealt(pool, n, d, left)
  {
    var left := seq(5, (i: nat) requires i < 5 => OnTable(pool, n, i) % n);
    if d == Split(pool, n) {
      assert Factor(0) == 10 && Factor(1) == 2 && Factor(2) == 5 && Factor(3) == 10;
      forall i: nat | i < 5 ensures DealtAt(pool, n, d.share, left, i) {
        DivMod(OnTable(pool, n, i), n);
        assert n * d.share.Get(Nth(i)) + left[i] == OnTable(pool, n, i);
      }
      assert Dealt(pool, n, d, left);
    }
    if exists left :: Dealt(pool, n, d, left) {
      var other :| Dealt(pool, n, d, other);
      DealtOnce(pool, n, d, other, 4);
      forall e: Denom ensures d.share.Get(e) == Split(pool, n).share.Get(e) {
        assert Nth(Rank(e)) == e;
      }
      SameCoins(d.share, Split(pool, n).share);
    }
  }

  lemma {:induction false} DealtOnce(pool: Coins, n: int, d: Division, left: seq<int>, i: nat)
    requires n >= 1 && Dealt(pool, n, d, left) && i < 5
    ensures forall j: nat :: j <= i ==> left[j] == OnTable(pool, n, j) % n && d.share.Get(Nth(j)) == OnTable(pool, n, j) / n
  {
    var above := if i == 0 then 0 else left[i - 1] * BROKEN_INTO[i - 1];
    if i > 0 {
      DealtOnce(pool, n, d, left, i - 1);
      assert Factor(0) == 10 && Factor(1) == 2 && Factor(2) == 5 && Factor(3) == 10;
      assert Factor(i - 1) == BROKEN_INTO[i - 1] && left[i - 1] == OnTable(pool, n, i - 1) % n;
    }
    assert DealtAt(pool, n, d.share, left, i);
    assert OnTable(pool, n, i) == pool.Get(Nth(i)) + above;
    DivModUnique(OnTable(pool, n, i), n, d.share.Get(Nth(i)), left[i]);
  }

  /** Nobody gets fewer coins of a denomination than an n-th of the pool's coins of it. */
  lemma SplitAtLeastFloor(pool: Coins, n: int, d: Denom)
    requires n >= 1
    ensures Split(pool, n).share.Get(d) >= pool.Get(d) / n
  {
    var i := Rank(d);
    if i > 0 {
      DivMod(OnTable(pool, n, i - 1), n);
      assert OnTable(pool, n, i) >= pool.Get(d);
    }
    DivMonotone(pool.Get(d), OnTable(pool, n, i), n);
  }

  // ---------------------------------------------------------------- convert

  function Convert(source: Denom, qty: int, target: Denom): (r: Result<Coins>) {
    if source == target then Err("same denomination")
    else if qty <= 0 then Err("qty must be a positive integer")
    else if qty * Multiplier(source) % Multiplier(target) != 0 then Err("lossy conversion")
    else Ok(NO_COINS.Set(source, -qty).Set(target, qty * Multiplier(source) / Multiplier(target)))
  }

  /** So many coins of one denomination are worth so many of another. */
  predicate Buys(qty: int, source: Denom, got: int, target: Denom) {
    qty * Multiplier(source) == got * Multiplier(target)
  }

  /** A conversion is accepted exactly if it is of a positive number of coins into another denomination and comes out even. */
  lemma ConvertAccepted(source: Denom, qty: int, target: Denom)
    ensures Convert(source, qty, target).Ok? <==> source != target && qty > 0 && exists got :: Buys(qty, source, got, target)
  {
    var worth := qty * Multiplier(source);
    var got := worth / Multiplier(target);
    DivMod(worth, Multiplier(target));
    if worth % Multiplier(target) == 0 {
      assert Buys(qty, source, got, target);
    } else if exists other :: Buys(qty, source, other, target) {
      var other :| Buys(qty, source, other, target);
      DivModUnique(worth, Multiplier(target), other, 0);
    }
  }

  /** Then the coins given are replaced by as many of the other as they are worth, and no further coin moves. */
  lemma ConvertYields(source: Denom, qty: int, target: Denom, got: int, d: Denom)
    requires Convert(source, qty, target).Ok? && Buys(qty, source, got, target)
    ensures Convert(source, qty, target).value.Get(d) == if d == source then -qty else if d == target then got else 0
  {
    DivModUnique(qty * Multiplier(source), Multiplier(target), got, 0);
  }

  /** A conversion moves no value, and converting back what it yields undoes it coin by coin. */
  lemma ConvertUndone(source: Denom, qty: int, target: Denom)
    requires Convert(source, qty, target).Ok?
    ensures var delta := Convert(source, qty, target).value;
      && ToCopper(delta) == 0
      && var back := Convert(target, delta.Get(target), source);
         back.Ok? && Add(delta, back.value) == NO_COINS
  {
    var worth := qty * Multiplier(source);
    var got := worth / Multiplier(target);
    assert got * Multiplier(target) == worth;
    var delta := Convert(source, qty, target).value;
    assert delta.Get(target) == got && delta.Get(source) == -qty;
    assert got >= 1;
    assert worth % Multiplier(source) == 0 && worth / Multiplier(source) == qty;
  }
}
