/**
 * Treasure rolls (packages/rules/src/hoard.ts). The generator is the stream of its draws; a roll
 * says from which position on it reads them.
 */
module Hoard {
  import opened MapSums

  type Rng = nat -> real

  predicate Unit(draw: real) {
    0.0 <= draw < 1.0
  }

  ghost predicate UnitDraws(rng: Rng) {
    forall i: nat :: Unit(rng(i))
  }

  function RandInt(draw: real, min: int, max: int): int {
    if max < min then min else min + (draw * (max - min + 1) as real).Floor
  }

  /** A draw yields exactly the integer of the range whose equal slice of [0, 1) it lies in. */
  lemma RandIntUniform(draw: real, min: int, max: int, v: int)
    requires 0.0 <= draw < 1.0 && min <= max
    ensures min <= RandInt(draw, min, max) <= max
    ensures RandInt(draw, min, max) == v
       <==> (v - min) as real <= draw * (max - min + 1) as real < (v - min + 1) as real
  {
    var span := (max - min + 1) as real;
    var x := draw * span;
    assert 0.0 <= x < span;
    assert x.Floor as real <= x < x.Floor as real + 1.0;
    assert (v - min + 1) as real == (v - min) as real + 1.0;
  }

  // ---------------------------------------------------------------- weighted buckets

  type Weights<!K> = seq<(K, real)>

  ghost predicate NonNegative<K>(weights: Weights<K>) {
    forall i :: 0 <= i < |weights| ==> weights[i].1 >= 0.0
  }

  /** The weight of the first `n` buckets. */
  function Below<K>(weights: Weights<K>, n: nat): real
    requires n <= |weights|
  {
    if n == 0 then 0.0 else Below(weights, n - 1) + weights[n - 1].1
  }

  function Total<K>(weights: Weights<K>): real {
    Below(weights, |weights|)
  }

  /** The bucket the walk stops at, starting with `x` at bucket `i`; the number of buckets if it runs through. */
  function Pick<K>(weights: Weights<K>, x: real, i: nat): (r: nat)
    requires i <= |weights|
    ensures i <= r <= |weights|
    decreases |weights| - i
  {
    if i == |weights| then i
    else if x - weights[i].1 < 0.0 then i
    else Pick(weights, x - weights[i].1, i + 1)
  }

  function Empty<K>(weights: Weights<K>): map<K, int> {
    map bucket | bucket in weights :: bucket.0 := 0
  }

  /** Counts one draw. */
  function AddDraw<K>(weights: Weights<K>, counts: map<K, int>, draw: real): (r: map<K, int>)
    requires counts.Keys == Empty(weights).Keys
    ensures r.Keys == counts.Keys
  {
    BumpPicked(weights, counts, Pick(weights, draw * Total(weights), 0))
  }

  function BumpPicked<K>(weights: Weights<K>, counts: map<K, int>, b: nat): (r: map<K, int>)
    requires b <= |weights| && counts.Keys == Empty(weights).Keys
    ensures r.Keys == counts.Keys
  {
    if b == |weights| then counts else Bump(weights, counts, b)
  }

  function Bump<K>(weights: Weights<K>, counts: map<K, int>, b: nat): (r: map<K, int>)
    requires b < |weights| && counts.Keys == Empty(weights).Keys
    ensures r.Keys == counts.Keys
  {
    assert weights[b] in weights;
    var k := weights[b].0;
    counts[k := counts[k] + 1]
  }

  lemma AddDrawPicks<K>(weights: Weights<K>, counts: map<K, int>, draw: real, x: real)
    requires counts.Keys == Empty(weights).Keys && x == draw * Total(weights)
    ensures AddDraw(weights, counts, draw) == BumpPicked(weights, counts, Pick(weights, x, 0))
  {
  }

  /** The counts after `n` draws. */
  function Tally<K>(rng: Rng, start: nat, n: nat, weights: Weights<K>): (r: map<K, int>)
    ensures r.Keys == Empty(weights).Keys
  {
    if n == 0 then Empty(weights)
    else AddDraw(weights, Tally(rng, start, n - 1, weights), rng(start + n - 1))
  }

  method RollBuckets<K(==)>(rng: Rng, start: nat, n: int, weights: Weights<K>) returns (out: map<K, int>)
    ensures out == if Total(weights) <= 0.0 || n <= 0 then Empty(weights) else Tally(rng, start, n, weights)
  {
    out := Empty(weights);
    var total := 0.0;
    for i := 0 to |weights|
      invariant total == Below(weights, i)
    {
      total := total + weights[i].1;
    }
    if total <= 0.0 || n <= 0 {
      return;
    }
    for i := 0 to n
      invariant out == Tally(rng, start, i, weights)
    {
      var draw := rng(start + i);
      ghost var before := out;
      assert Tally(rng, start, i + 1, weights) == AddDraw(weights, before, draw);
      var x, b := draw * total, 0;
      ghost var picked := Pick(weights, x, 0);
      assert total == Total(weights);
      AddDrawPicks(weights, before, draw, x);
      while b < |weights|
        invariant 0 <= b <= |weights| && out == before
        invariant picked == Pick(weights, x, b)
      {
        x := x - weights[b].1;
        if x < 0.0 {
          out := Bump(weights, out, b);
          break;
        }
        b := b + 1;
      }
    }
  }

  /** The draw's share of the total lies within the b-th bucket. */
  ghost predicate LandsIn<K>(weights: Weights<K>, draw: real, b: nat) {
    b < |weights| && Below(weights, b) <= draw * Total(weights) < Below(weights, b + 1)
  }

  lemma {:induction false} BelowGrows<K>(weights: Weights<K>, i: nat, j: nat)
    requires NonNegative(weights) && i <= j <= |weights|
    ensures 0.0 <= Below(weights, i) <= Below(weights, j)
    decreases j
  {
    if i < j {
      BelowGrows(weights, i, j - 1);
    } else if i > 0 {
      BelowGrows(weights, i - 1, j - 1);
    }
  }

  lemma {:induction false} PickLands<K>(weights: Weights<K>, x: real, i: nat)
    requires i <= |weights| && Below(weights, i) <= x < Total(weights)
    ensures var b := Pick(weights, x - Below(weights, i), i);
      b < |weights| && Below(weights, b) <= x < Below(weights, b + 1)
    decreases |weights| - i
  {
    if i < |weights| {
      assert Below(weights, i + 1) == Below(weights, i) + weights[i].1;
      if x >= Below(weights, i + 1) {
        PickLands(weights, x, i + 1);
        assert x - Below(weights, i) - weights[i].1 == x - Below(weights, i + 1);
      }
    }
  }

  /** Every draw lands in one bucket and no other, one of positive weight, and that is the one picked. */
  lemma OneBucketPerDraw<K>(weights: Weights<K>, draw: real, b: nat)
    requires NonNegative(weights) && Total(weights) > 0.0 && 0.0 <= draw < 1.0
    ensures Pick(weights, draw * Total(weights), 0) < |weights|
    ensures LandsIn(weights, draw, b) <==> b == Pick(weights, draw * Total(weights), 0)
    ensures LandsIn(weights, draw, b) ==> weights[b].1 > 0.0
  {
    var x := draw * Total(weights);
    assert 0.0 <= x < Total(weights);
    PickLands(weights, x, 0);
    var p := Pick(weights, x, 0);
    if LandsIn(weights, draw, b) && b != p {
      if b < p {
        BelowGrows(weights, b + 1, p);
      } else {
        BelowGrows(weights, p + 1, b);
      }
    }
  }

  ghost predicate LandsOn<K(!new)>(weights: Weights<K>, draw: real, k: K) {
    exists b: nat :: LandsIn(weights, draw, b) && weights[b].0 == k
  }

  /** How many of the `n` draws land in a bucket of that key. */
  ghost function Landed<K(!new)>(rng: Rng, start: nat, n: nat, weights: Weights<K>, k: K): nat {
    if n == 0 then 0
    else
      Landed(rng, start, n - 1, weights, k) + (if LandsOn(weights, rng(start + n - 1), k) then 1 else 0)
  }

  ghost function Count<K(!new)>(): (K, int) -> int {
    (k: K, c: int) => c
  }

  lemma DrawCounted<K(!new)>(weights: Weights<K>, counts: map<K, int>, draw: real, k: K)
    requires NonNegative(weights) && Total(weights) > 0.0 && Unit(draw)
    requires counts.Keys == Empty(weights).Keys && k in counts
    ensures MapSum(AddDraw(weights, counts, draw), Count()) == MapSum(counts, Count()) + 1
    ensures AddDraw(weights, counts, draw)[k] == counts[k] + (if LandsOn(weights, draw, k) then 1 else 0)
  {
    var p := Pick(weights, draw * Total(weights), 0);
    OneBucketPerDraw(weights, draw, p);
    assert weights[p] in weights;
    SumWrite(counts, Count(), weights[p].0, counts[weights[p].0] + 1);
    if LandsOn(weights, draw, k) {
      var b: nat :| LandsIn(weights, draw, b) && weights[b].0 == k;
      OneBucketPerDraw(weights, draw, b);
    }
  }

  /** The counts sum to the number of draws, and the key's is the number of draws landing in its buckets. */
  ghost predicate AllCounted<K(!new)>(rng: Rng, start: nat, n: nat, weights: Weights<K>, k: K)
    requires k in Empty(weights)
  {
    var counts := Tally(rng, start, n, weights);
    MapSum(counts, Count()) == n && counts[k] == Landed(rng, start, n, weights, k)
  }

  lemma NothingCounted<K(!new)>(rng: Rng, start: nat, weights: Weights<K>, k: K)
    requires k in Empty(weights)
    ensures AllCounted(rng, start, 0, weights, k)
  {
    SumZero(Empty(weights), Count());
  }

  lemma OneMoreCounted<K(!new)>(rng: Rng, start: nat, n: nat, weights: Weights<K>, k: K)
    requires UnitDraws(rng) && NonNegative(weights) && Total(weights) > 0.0
    requires k in Empty(weights) && AllCounted(rng, start, n, weights, k)
    ensures AllCounted(rng, start, n + 1, weights, k)
  {
    var draw, before := rng(start + n), Tally(rng, start, n, weights);
    assert Unit(draw);
    DrawCounted(weights, before, draw, k);
    assert Tally(rng, start, n + 1, weights) == AddDraw(weights, before, draw);
  }

  lemma {:induction false} CountedAll<K(!new)>(rng: Rng, start: nat, n: nat, weights: Weights<K>, k: K)
    requires UnitDraws(rng) && NonNegative(weights) && Total(weights) > 0.0
    requires k in Empty(weights)
    ensures AllCounted(rng, start, n, weights, k)
  {
    if n == 0 {
      NothingCounted(rng, start, weights, k);
    } else {
      CountedAll(rng, start, n - 1, weights, k);
      OneMoreCounted(rng, start, n - 1, weights, k);
    }
  }

  lemma EveryDrawCounted<K(!new)>(rng: Rng, start: nat, n: nat, weights: Weights<K>, k: K)
    requires UnitDraws(rng) && NonNegative(weights) && Total(weights) > 0.0
    requires k in Empty(weights)
    ensures MapSum(Tally(rng, start, n, weights), Count()) == n
    ensures Tally(rng, start, n, weights)[k] == Landed(rng, start, n, weights, k)
  {
    CountedAll(rng, start, n, weights, k);
  }

  /** A key whose buckets all weigh nothing is never drawn. */
  lemma {:induction false} ZeroWeightNeverDrawn<K(!new)>(rng: Rng, start: nat, n: nat, weights: Weights<K>, k: K)
    requires UnitDraws(rng) && NonNegative(weights) && Total(weights) > 0.0
    requires k in Empty(weights)
    requires forall b :: 0 <= b < |weights| && weights[b].0 == k ==> weights[b].1 == 0.0
    ensures Tally(rng, start, n, weights)[k] == 0
  {
    EveryDrawCounted(rng, start, n, weights, k);
    NothingLanded(rng, start, n, weights, k);
  }

  lemma WeightlessMissed<K(!new)>(weights: Weights<K>, draw: real, k: K)
    requires NonNegative(weights) && Total(weights) > 0.0 && Unit(draw)
    requires forall b :: 0 <= b < |weights| && weights[b].0 == k ==> weights[b].1 == 0.0
    ensures !LandsOn(weights, draw, k)
  {
    forall b: nat | b < |weights| && weights[b].0 == k ensures !LandsIn(weights, draw, b) {
      OneBucketPerDraw(weights, draw, b);
    }
  }

  lemma {:induction false} NothingLanded<K(!new)>(rng: Rng, start: nat, n: nat, weights: Weights<K>, k: K)
    requires UnitDraws(rng) && NonNegative(weights) && Total(weights) > 0.0
    requires forall b :: 0 <= b < |weights| && weights[b].0 == k ==> weights[b].1 == 0.0
    ensures Landed(rng, start, n, weights, k) == 0
  {
    if n > 0 {
      NothingLanded(rng, start, n - 1, weights, k);
      var draw := rng(start + n - 1);
      assert Unit(draw);
      WeightlessMissed(weights, draw, k);
    }
  }

  // ---------------------------------------------------------------- the tables

  datatype CrBand = Band0To4 | Band5To10 | Band11To16 | Band17Up

  datatype Rarity = Common | Uncommon | Rare | VeryRare | Legendary

  datatype GemTier = G10 | G50 | G100 | G500 | G1000 | G5000

  function MagicCount(band: CrBand): (int, int) {
    match band
    case Band0To4 => (0, 3)
    case Band5To10 => (1, 5)
    case Band11To16 => (2, 6)
    case Band17Up => (3, 8)
  }

  function MagicWeights(band: CrBand): Weights<Rarity> {
    match band
    case Band0To4 => [(Common, 70.0), (Uncommon, 30.0), (Rare, 0.0), (VeryRare, 0.0), (Legendary, 0.0)]
    case Band5To10 => [(Common, 30.0), (Uncommon, 50.0), (Rare, 20.0), (VeryRare, 0.0), (Legendary, 0.0)]
    case Band11To16 => [(Common, 10.0), (Uncommon, 30.0), (Rare, 40.0), (VeryRare, 20.0), (Legendary, 0.0)]
    case Band17Up => [(Common, 0.0), (Uncommon, 10.0), (Rare, 30.0), (VeryRare, 40.0), (Legendary, 20.0)]
  }

  function GemCount(band: CrBand): (int, int) {
    match band
    case Band0To4 => (0, 4)
    case Band5To10 => (0, 6)
    case Band11To16 => (1, 8)
    case Band17Up => (2, 10)
  }

  function GemWeights(band: CrBand): Weights<GemTier> {
    match band
    case Band0To4 => [(G10, 70.0), (G50, 30.0), (G100, 0.0), (G500, 0.0), (G1000, 0.0), (G5000, 0.0)]
    case Band5To10 => [(G10, 20.0), (G50, 50.0), (G100, 30.0), (G500, 0.0), (G1000, 0.0), (G5000, 0.0)]
    case Band11To16 => [(G10, 0.0), (G50, 10.0), (G100, 40.0), (G500, 35.0), (G1000, 15.0), (G5000, 0.0)]
    case Band17Up => [(G10, 0.0), (G50, 0.0), (G100, 10.0), (G500, 30.0), (G1000, 40.0), (G5000, 20.0)]
  }

  /** The first draw sets how many items are rolled, the following ones their buckets. */
  method Roll<K(==)>(rng: Rng, start: nat, count: (int, int), weights: Weights<K>) returns (n: int, out: map<K, int>)
    requires 0 <= count.0 <= count.1 && UnitDraws(rng) && Total(weights) > 0.0
    ensures n == RandInt(rng(start), count.0, count.1) && count.0 <= n <= count.1
    ensures out == Tally(rng, start + 1, n, weights)
  {
    n := RandInt(rng(start), count.0, count.1);
    RandIntUniform(rng(start), count.0, count.1, n);
    out := RollBuckets(rng, start + 1, n, weights);
  }

  lemma TotalOfFive<K>(w: Weights<K>)
    requires |w| == 5
    ensures Total(w) == w[0].1 + w[1].1 + w[2].1 + w[3].1 + w[4].1
  {
    assert Below(w, 1) == w[0].1;
    assert Below(w, 2) == Below(w, 1) + w[1].1;
    assert Below(w, 3) == Below(w, 2) + w[2].1;
    assert Below(w, 4) == Below(w, 3) + w[3].1;
  }

  lemma TotalOfSix<K>(w: Weights<K>)
    requires |w| == 6
    ensures Total(w) == w[0].1 + w[1].1 + w[2].1 + w[3].1 + w[4].1 + w[5].1
  {
    assert Below(w, 1) == w[0].1;
    assert Below(w, 2) == Below(w, 1) + w[1].1;
    assert Below(w, 3) == Below(w, 2) + w[2].1;
    assert Below(w, 4) == Below(w, 3) + w[3].1;
    assert Below(w, 5) == Below(w, 4) + w[4].1;
  }

  lemma MagicTotals(band: CrBand)
    ensures Total(MagicWeights(band)) == 100.0 && NonNegative(MagicWeights(band))
  {
    TotalOfFive(MagicWeights(band));
  }

  lemma GemTotals(band: CrBand)
    ensures Total(GemWeights(band)) == 100.0 && NonNegative(GemWeights(band))
  {
    TotalOfSix(GemWeights(band));
  }

  /** Which rarities a band can yield at all. */
  predicate Attainable(band: CrBand, rarity: Rarity) {
    match rarity
    case Common => band != Band17Up
    case Uncommon => true
    case Rare => band != Band0To4
    case VeryRare => band == Band11To16 || band == Band17Up
    case Legendary => band == Band17Up
  }

  function Bucket(rarity: Rarity): nat {
    match rarity
    case Common => 0
    case Uncommon => 1
    case Rare => 2
    case VeryRare => 3
    case Legendary => 4
  }

  lemma TableShape(band: CrBand, rarity: Rarity)
    ensures rarity in Empty(MagicWeights(band))
    ensures !Attainable(band, rarity) ==>
              forall b :: 0 <= b < |MagicWeights(band)| && MagicWeights(band)[b].0 == rarity ==> MagicWeights(band)[b].1 == 0.0
  {
    var w := MagicWeights(band);
    assert w[Bucket(rarity)] in w;
    forall b | 0 <= b < |w| && w[b].0 == rarity ensures b == Bucket(rarity) {
      assert w[b].0 == [Common, Uncommon, Rare, VeryRare, Legendary][b];
    }
  }

  /** Whatever the draws, the magic items number what was rolled and none is of an unattainable rarity. */
  lemma MagicLaw(rng: Rng, start: nat, n: nat, band: CrBand, rarity: Rarity)
    requires UnitDraws(rng)
    ensures MapSum(Tally(rng, start, n, MagicWeights(band)), Count()) == n
    ensures rarity in Tally(rng, start, n, MagicWeights(band))
    ensures !Attainable(band, rarity) ==> Tally(rng, start, n, MagicWeights(band))[rarity] == 0
  {
    MagicTotals(band);
    TableShape(band, rarity);
    EveryDrawCounted(rng, start, n, MagicWeights(band), rarity);
    if !Attainable(band, rarity) {
      ZeroWeightNeverDrawn(rng, start, n, MagicWeights(band), rarity);
    }
  }

  lemma DistinctTiers(band: CrBand)
    ensures |GemWeights(band)| == 6
    ensures forall i, j :: 0 <= i < j < 6 ==> GemWeights(band)[i].0 != GemWeights(band)[j].0
  {
  }

  lemma EveryTier(band: CrBand, tier: GemTier)
    ensures tier in Empty(GemWeights(band))
  {
    var w := GemWeights(band);
    var b := match tier case G10 => 0 case G50 => 1 case G100 => 2 case G500 => 3 case G1000 => 4 case G5000 => 5;
    assert w[b] in w && w[b].0 == tier;
  }

  lemma GemZero(rng: Rng, start: nat, n: nat, band: CrBand, b: nat)
    requires UnitDraws(rng) && b < |GemWeights(band)| && GemWeights(band)[b].1 == 0.0
    ensures GemWeights(band)[b].0 in Tally(rng, start, n, GemWeights(band))
    ensures Tally(rng, start, n, GemWeights(band))[GemWeights(band)[b].0] == 0
  {
    GemTotals(band);
    DistinctTiers(band);
    EveryDrawCounted(rng, start, n, GemWeights(band), GemWeights(band)[b].0);
    ZeroWeightNeverDrawn(rng, start, n, GemWeights(band), GemWeights(band)[b].0);
  }

  /** A band's gems likewise, for every tier of weight zero in its table. */
  lemma GemLaw(rng: Rng, start: nat, n: nat, band: CrBand, b: nat)
    requires UnitDraws(rng) && b < |GemWeights(band)|
    ensures MapSum(Tally(rng, start, n, GemWeights(band)), Count()) == n
    ensures GemWeights(band)[b].0 in Tally(rng, start, n, GemWeights(band))
    ensures GemWeights(band)[b].1 == 0.0 ==> Tally(rng, start, n, GemWeights(band))[GemWeights(band)[b].0] == 0
  {
    GemTotals(band);
    assert GemWeights(band)[b] in GemWeights(band);
    EveryDrawCounted(rng, start, n, GemWeights(band), GemWeights(band)[b].0);
    if GemWeights(band)[b].1 == 0.0 {
      GemZero(rng, start, n, band, b);
    }
  }

  /** The draw lies in the slice of the range that yields `n`. */
  predicate Yields(draw: real, range: (int, int), n: int) {
    (n - range.0) as real <= draw * (range.1 - range.0 + 1) as real < (n - range.0 + 1) as real
  }

  method RollMagic(rng: Rng, start: nat, band: CrBand) returns (n: int, out: map<Rarity, int>)
    requires UnitDraws(rng)
    ensures MagicCount(band).0 <= n <= MagicCount(band).1 && MapSum(out, Count()) == n
    ensures Yields(rng(start), MagicCount(band), n)
    ensures forall rarity: Rarity :: rarity in out && out[rarity] == Landed(rng, start + 1, n, MagicWeights(band), rarity)
    ensures forall rarity: Rarity :: rarity in out && (!Attainable(band, rarity) ==> out[rarity] == 0)
  {
    MagicTotals(band);
    n, out := Roll(rng, start, MagicCount(band), MagicWeights(band));
    RandIntUniform(rng(start), MagicCount(band).0, MagicCount(band).1, n);
    forall rarity: Rarity
      ensures MapSum(out, Count()) == n && rarity in out && (!Attainable(band, rarity) ==> out[rarity] == 0)
      ensures rarity in out && out[rarity] == Landed(rng, start + 1, n, MagicWeights(band), rarity)
    {
      MagicLaw(rng, start + 1, n, band, rarity);
      EveryDrawCounted(rng, start + 1, n, MagicWeights(band), rarity);
    }
    assert Uncommon in out;
  }

  method RollGems(rng: Rng, start: nat, band: CrBand) returns (n: int, out: map<GemTier, int>)
    requires UnitDraws(rng)
    ensures GemCount(band).0 <= n <= GemCount(band).1 && MapSum(out, Count()) == n
    ensures Yields(rng(start), GemCount(band), n)
    ensures forall tier: GemTier :: tier in out && out[tier] == Landed(rng, start + 1, n, GemWeights(band), tier)
    ensures forall b :: 0 <= b < |GemWeights(band)| && GemWeights(band)[b].1 == 0.0 ==>
              GemWeights(band)[b].0 in out && out[GemWeights(band)[b].0] == 0
  {
    GemTotals(band);
    DistinctTiers(band);
    n, out := Roll(rng, start, GemCount(band), GemWeights(band));
    RandIntUniform(rng(start), GemCount(band).0, GemCount(band).1, n);
    GemLaw(rng, start + 1, n, band, 0);
    forall tier: GemTier ensures tier in out && out[tier] == Landed(rng, start + 1, n, GemWeights(band), tier) {
      EveryTier(band, tier);
      EveryDrawCounted(rng, start + 1, n, GemWeights(band), tier);
    }
    forall b | 0 <= b < |GemWeights(band)| && GemWeights(band)[b].1 == 0.0
      ensures GemWeights(band)[b].0 in out && out[GemWeights(band)[b].0] == 0
    {
      GemLaw(rng, start + 1, n, band, b);
    }
  }

  // ---------------------------------------------------------------- higher bands

  function Level(band: CrBand): nat {
    match band
    case Band0To4 => 0
    case Band5To10 => 1
    case Band11To16 => 2
    case Band17Up => 3
  }

  /** At every bucket the second table has no more weight below than the first. */
  ghost predicate Higher<K>(low: Weights<K>, high: Weights<K>) {
    && |low| == |high| && Total(low) == Total(high)
    && forall n: nat :: n <= |low| ==> Below(high, n) <= Below(low, n)
  }

  /** Then the same draw picks the same or a later bucket. */
  lemma HigherPicks<K>(low: Weights<K>, high: Weights<K>, draw: real)
    requires NonNegative(low) && NonNegative(high) && Higher(low, high) && Total(low) > 0.0 && Unit(draw)
    ensures Pick(low, draw * Total(low), 0) <= Pick(high, draw * Total(high), 0)
  {
    var b, c := Pick(low, draw * Total(low), 0), Pick(high, draw * Total(high), 0);
    OneBucketPerDraw(low, draw, b);
    OneBucketPerDraw(high, draw, c);
    assert Below(high, c + 1) <= Below(low, c + 1);
    if c < b {
      BelowGrows(low, c + 1, b);
    }
  }

  lemma BelowFive<K>(w: Weights<K>)
    requires |w| == 5
    ensures Below(w, 0) == 0.0 && Below(w, 1) == w[0].1 && Below(w, 2) == w[0].1 + w[1].1
    ensures Below(w, 3) == w[0].1 + w[1].1 + w[2].1 && Below(w, 4) == w[0].1 + w[1].1 + w[2].1 + w[3].1
  {
    assert Below(w, 1) == w[0].1;
    assert Below(w, 2) == Below(w, 1) + w[1].1;
    assert Below(w, 3) == Below(w, 2) + w[2].1;
  }

  lemma BelowSix<K>(w: Weights<K>)
    requires |w| == 6
    ensures Below(w, 0) == 0.0 && Below(w, 1) == w[0].1 && Below(w, 2) == w[0].1 + w[1].1
    ensures Below(w, 3) == w[0].1 + w[1].1 + w[2].1 && Below(w, 4) == w[0].1 + w[1].1 + w[2].1 + w[3].1
    ensures Below(w, 5) == w[0].1 + w[1].1 + w[2].1 + w[3].1 + w[4].1
  {
    assert Below(w, 1) == w[0].1;
    assert Below(w, 2) == Below(w, 1) + w[1].1;
    assert Below(w, 3) == Below(w, 2) + w[2].1;
    assert Below(w, 4) == Below(w, 3) + w[3].1;
  }

  lemma MagicHigher(low: CrBand, high: CrBand)
    requires Level(low) <= Level(high)
    ensures Higher(MagicWeights(low), MagicWeights(high))
  {
    MagicTotals(low);
    MagicTotals(high);
    BelowFive(MagicWeights(low));
    BelowFive(MagicWeights(high));
    forall n: nat | n <= 5 ensures Below(MagicWeights(high), n) <= Below(MagicWeights(low), n) {
      assert n == 0 || n == 1 || n == 2 || n == 3 || n == 4 || n == 5;
    }
  }

  lemma GemHigher(low: CrBand, high: CrBand)
    requires Level(low) <= Level(high)
    ensures Higher(GemWeights(low), GemWeights(high))
  {
    GemTotals(low);
    GemTotals(high);
    BelowSix(GemWeights(low));
    BelowSix(GemWeights(high));
    forall n: nat | n <= 6 ensures Below(GemWeights(high), n) <= Below(GemWeights(low), n) {
      assert n == 0 || n == 1 || n == 2 || n == 3 || n == 4 || n == 5 || n == 6;
    }
  }

  lemma WiderYieldsMore(draw: real, a: (int, int), b: (int, int))
    requires Unit(draw) && a.0 <= a.1 && a.0 <= b.0 && a.1 - a.0 <= b.1 - b.0
    ensures RandInt(draw, a.0, a.1) <= RandInt(draw, b.0, b.1)
  {
    var x, y := draw * (a.1 - a.0 + 1) as real, draw * (b.1 - b.0 + 1) as real;
    assert x <= y;
    assert x.Floor <= y.Floor;
  }

  /** Of a hundred magic items, how many are of the first so many rarities. */
  function MagicUpTo(band: CrBand): seq<real> {
    match band
    case Band0To4 => [70.0, 100.0, 100.0, 100.0, 100.0]
    case Band5To10 => [30.0, 80.0, 100.0, 100.0, 100.0]
    case Band11To16 => [10.0, 40.0, 80.0, 100.0, 100.0]
    case Band17Up => [0.0, 10.0, 40.0, 80.0, 100.0]
  }

  function GemsUpTo(band: CrBand): seq<real> {
    match band
    case Band0To4 => [70.0, 100.0, 100.0, 100.0, 100.0, 100.0]
    case Band5To10 => [20.0, 70.0, 100.0, 100.0, 100.0, 100.0]
    case Band11To16 => [0.0, 10.0, 50.0, 85.0, 100.0, 100.0]
    case Band17Up => [0.0, 0.0, 10.0, 40.0, 80.0, 100.0]
  }

  /** The bucket picked is at most `b` exactly if the draw's share of the weights lies below `b`'s upper end. */
  lemma PickedUpTo<K>(weights: Weights<K>, draw: real, b: nat)
    requires NonNegative(weights) && Total(weights) > 0.0 && Unit(draw) && b < |weights|
    ensures Pick(weights, draw * Total(weights), 0) <= b <==> draw * Total(weights) < Below(weights, b + 1)
  {
    var p := Pick(weights, draw * Total(weights), 0);
    OneBucketPerDraw(weights, draw, p);
    if p <= b {
      BelowGrows(weights, p + 1, b + 1);
    } else {
      BelowGrows(weights, b + 1, p);
    }
  }

  /** A draw yields at most the b-th rarity exactly if it lies in that share of the unit interval. */
  lemma MagicShares(band: CrBand, draw: real, b: nat)
    requires Unit(draw) && b < 5
    ensures Pick(MagicWeights(band), draw * 100.0, 0) <= b <==> draw * 100.0 < MagicUpTo(band)[b]
  {
    MagicTotals(band);
    MagicUpToBelow(band, b);
    PickedUpTo(MagicWeights(band), draw, b);
  }

  lemma MagicUpToBelow(band: CrBand, b: nat)
    requires b < 5
    ensures Below(MagicWeights(band), b + 1) == MagicUpTo(band)[b]
  {
    MagicTotals(band);
    BelowFive(MagicWeights(band));
  }

  /** Likewise for gems and their tiers. */
  lemma GemShares(band: CrBand, draw: real, b: nat)
    requires Unit(draw) && b < 6
    ensures Pick(GemWeights(band), draw * 100.0, 0) <= b <==> draw * 100.0 < GemsUpTo(band)[b]
  {
    GemTotals(band);
    GemsUpToBelow(band, b);
    PickedUpTo(GemWeights(band), draw, b);
  }

  lemma GemsUpToBelow(band: CrBand, b: nat)
    requires b < 6
    ensures Below(GemWeights(band), b + 1) == GemsUpTo(band)[b]
  {
    GemTotals(band);
    BelowSix(GemWeights(band));
  }

  /** With the same draw a higher band rolls at least as many items and gems. */
  lemma HigherBandsRollMore(draw: real, low: CrBand, high: CrBand)
    requires Unit(draw) && Level(low) <= Level(high)
    ensures RandInt(draw, MagicCount(low).0, MagicCount(low).1) <= RandInt(draw, MagicCount(high).0, MagicCount(high).1)
    ensures RandInt(draw, GemCount(low).0, GemCount(low).1) <= RandInt(draw, GemCount(high).0, GemCount(high).1)
  {
    WiderYieldsMore(draw, MagicCount(low), MagicCount(high));
    WiderYieldsMore(draw, GemCount(low), GemCount(high));
  }

  /** And each of them is at least as rare, or precious. */
  lemma HigherBandsRollRarer(draw: real, low: CrBand, high: CrBand)
    requires Unit(draw) && Level(low) <= Level(high)
    ensures Pick(MagicWeights(low), draw * 100.0, 0) <= Pick(MagicWeights(high), draw * 100.0, 0)
    ensures Pick(GemWeights(low), draw * 100.0, 0) <= Pick(GemWeights(high), draw * 100.0, 0)
  {
    MagicTotals(low);
    MagicTotals(high);
    GemTotals(low);
    GemTotals(high);
    MagicHigher(low, high);
    GemHigher(low, high);
    HigherPicks(MagicWeights(low), MagicWeights(high), draw);
    HigherPicks(GemWeights(low), GemWeights(high), draw);
  }
}
