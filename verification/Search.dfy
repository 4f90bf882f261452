/** Catalogue search (packages/rules/src/search.ts). Text is lower-cased over ASCII. */
module Search {
  import opened Sequences

  // ---------------------------------------------------------------- the window matcher

  /** How far apart the first and the last matched character may be. */
  function MaxSpan(m: nat): nat {
    if m + 2 > 3 * m then m + 2 else 3 * m
  }

  /** Progress of the scan: how much of the needle is matched, and where its match began. */
  datatype Scan = Scan(matched: nat, first: int)

  function ScanChar(needle: string, at: nat, c: char, scan: Scan): Scan
    requires scan.matched < |needle|
  {
    if c != needle[scan.matched] then scan
    else
      var first := if scan.first == -1 then at else scan.first;
      if at - first >= MaxSpan(|needle|) then
        (if c == needle[0] then Scan(1, at) else Scan(0, -1))
      else Scan(scan.matched + 1, first)
  }

  /** The scan after the first `upTo` characters. */
  function ScanTo(haystack: string, needle: string, upTo: nat): (r: Scan)
    requires needle != [] && upTo <= |haystack|
    ensures r.matched <= |needle|
  {
    if upTo == 0 then Scan(0, -1)
    else
      var before := ScanTo(haystack, needle, upTo - 1);
      if before.matched == |needle| then before
      else ScanChar(needle, upTo - 1, haystack[upTo - 1], before)
  }

  predicate WindowMatch(haystack: string, needle: string) {
    needle == [] || (|needle| <= |haystack| && ScanTo(haystack, needle, |haystack|).matched == |needle|)
  }

  method IsSubsequence(haystack: string, needle: string) returns (found: bool)
    ensures found == WindowMatch(haystack, needle)
  {
    if |needle| == 0 {
      return true;
    }
    if |needle| > |haystack| {
      return false;
    }
    var maxSpan := MaxSpan(|needle|);
    var ni, firstMatch, hi := 0, -1, 0;
    while hi < |haystack| && ni < |needle|
      invariant 0 <= hi <= |haystack| && 0 <= ni <= |needle|
      invariant ScanTo(haystack, needle, hi) == Scan(ni, firstMatch)
    {
      if haystack[hi] == needle[ni] {
        if firstMatch == -1 {
          firstMatch := hi;
        }
        if hi - firstMatch >= maxSpan {
          ni, firstMatch := 0, -1;
          if haystack[hi] == needle[0] {
            firstMatch, ni := hi, 1;
          }
        } else {
          ni := ni + 1;
        }
      }
      hi := hi + 1;
    }
    if ni == |needle| {
      ScanStops(haystack, needle, hi, |haystack|);
    }
    found := ni == |needle|;
  }

  lemma {:induction false} ScanStops(haystack: string, needle: string, i: nat, j: nat)
    requires needle != [] && i <= j <= |haystack|
    requires ScanTo(haystack, needle, i).matched == |needle|
    ensures ScanTo(haystack, needle, j) == ScanTo(haystack, needle, i)
  {
    if i < j {
      ScanStops(haystack, needle, i, j - 1);
    }
  }

  /** Three times the needle's length, for any needle. */
  lemma SpanThreefold(m: nat)
    requires m >= 1
    ensures MaxSpan(m) == 3 * m
  {
  }

  /** `at` spells `needle` in `haystack` within the allowed window. */
  ghost predicate SpellsInWindow(at: seq<nat>, needle: string, haystack: string) {
    && Spells(at, needle, haystack)
    && (at != [] ==> at[|at| - 1] - at[0] < MaxSpan(|needle|))
  }

  /** A match is witnessed by increasing positions that spell the needle inside the window. */
  lemma MatchSound(haystack: string, needle: string) returns (at: seq<nat>)
    requires WindowMatch(haystack, needle)
    ensures SpellsInWindow(at, needle, haystack)
    ensures needle != [] ==> at != [] && at[|at| - 1] - at[0] < 3 * |needle|
  {
    if needle == [] {
      at := [];
    } else {
      SpanThreefold(|needle|);
      at := ScanWitness(haystack, needle, |haystack|);
      assert needle[..|needle|] == needle;
    }
  }

  lemma {:induction false} ScanWitness(haystack: string, needle: string, upTo: nat) returns (at: seq<nat>)
    requires needle != [] && upTo <= |haystack|
    ensures var scan := ScanTo(haystack, needle, upTo);
      && Spells(at, needle[..scan.matched], haystack[..upTo])
      && (if at == [] then scan.first == -1
          else scan.first == at[0] && at[|at| - 1] - at[0] < MaxSpan(|needle|))
  {
    if upTo == 0 {
      return [];
    }
    var p := upTo - 1;
    at := ScanWitness(haystack, needle, p);
    var before := ScanTo(haystack, needle, p);
    var c := haystack[p];
    if before.matched < |needle| && c == needle[before.matched] {
      var first := if before.first == -1 then p else before.first;
      if p - first < MaxSpan(|needle|) {
        at := at + [p];
      } else if c == needle[0] {
        at := [p];
      } else {
        at := [];
      }
    }
  }

  /**
   * On text no longer than the window the matcher decides ordinary subsequence: it never restarts,
   * and matching greedily loses nothing.
   */
  lemma MatchExactOnShort(haystack: string, needle: string)
    requires |haystack| <= MaxSpan(|needle|)
    ensures WindowMatch(haystack, needle) <==> Subsequence(needle, haystack)
  {
    if needle == [] {
      assert Spells([], needle, haystack);
    } else {
      GreedyScan(haystack, needle, |haystack|);
      var rest := needle[ScanTo(haystack, needle, |haystack|).matched..];
      assert haystack[|haystack|..] == [];
      if rest == [] {
        assert Spells([], rest, []);
      }
      if WindowMatch(haystack, needle) {
        assert |needle| <= |haystack|;
      } else if Subsequence(needle, haystack) {
        var at: seq<nat> :| Spells(at, needle, haystack);
        SpellsFits(at, needle, haystack);
      }
    }
  }

  lemma SpellsFits(at: seq<nat>, part: string, whole: string)
    requires Spells(at, part, whole)
    ensures |part| <= |whole|
  {
    if at != [] {
      AtLeastIndex(at, |at| - 1);
    }
  }

  lemma {:induction false} AtLeastIndex(at: seq<nat>, i: nat)
    requires i < |at| && forall i, j :: 0 <= i < j < |at| ==> at[i] < at[j]
    ensures at[i] >= i
  {
    if i > 0 {
      AtLeastIndex(at, i - 1);
    }
  }

  /** While no restart happens, the needle is a subsequence iff its unmatched rest is one of the unread rest. */
  lemma {:induction false} GreedyScan(haystack: string, needle: string, upTo: nat)
    requires needle != [] && upTo <= |haystack| <= MaxSpan(|needle|)
    ensures var scan := ScanTo(haystack, needle, upTo);
      && (if scan.matched == 0 then scan.first == -1 else 0 <= scan.first < upTo)
      && (Subsequence(needle[scan.matched..], haystack[upTo..]) <==> Subsequence(needle, haystack))
  {
    if upTo > 0 {
      var p := upTo - 1;
      GreedyScan(haystack, needle, p);
      var before := ScanTo(haystack, needle, p);
      var part, whole := needle[before.matched..], haystack[p..];
      assert whole[1..] == haystack[upTo..];
      if part == [] {
        assert Spells([], part, whole[1..]) && Spells([], part, whole);
      } else {
        GreedyMatch(part, whole);
        assert part[1..] == needle[before.matched + 1..];
      }
    } else {
      assert needle[0..] == needle && haystack[0..] == haystack;
    }
  }

  /** On longer text a window can be missed: the scan keeps the first start it saw. */
  lemma MatchMissesWindow()
    ensures SpellsInWindow([5, 8], "ab", "a....a..b") && !WindowMatch("a....a..b", "ab")
  {
    var h, n := "a....a..b", "ab";
    assert ScanTo(h, n, 1) == Scan(1, 0);
    assert ScanTo(h, n, 2) == Scan(1, 0);
    assert ScanTo(h, n, 3) == Scan(1, 0);
    assert ScanTo(h, n, 4) == Scan(1, 0);
    assert ScanTo(h, n, 5) == Scan(1, 0);
    assert ScanTo(h, n, 6) == Scan(1, 0);
    assert ScanTo(h, n, 7) == Scan(1, 0);
    assert ScanTo(h, n, 8) == Scan(1, 0);
    assert ScanTo(h, n, 9) == Scan(0, -1);
  }

  // ---------------------------------------------------------------- scoring one field

  /** First position from `from` on where `probe` occurs, or -1. */
  function IndexOf(haystack: string, probe: string, from: nat): (r: int)
    requires from <= |haystack|
    ensures r == -1 || from <= r <= |haystack| - |probe|
    decreases |haystack| - from
  {
    if OccursAt(haystack, probe, from) then from
    else if from == |haystack| then -1
    else IndexOf(haystack, probe, from + 1)
  }

  predicate OccursAt(haystack: string, probe: string, i: int) {
    0 <= i <= |haystack| - |probe| && haystack[i..i + |probe|] == probe
  }

  predicate Alphanumeric(c: char) {
    'a' <= c <= 'z' || '0' <= c <= '9'
  }

  predicate WordStart(haystack: string, i: int)
    requires 0 <= i <= |haystack|
  {
    i == 0 || !Alphanumeric(haystack[i - 1])
  }

  const SHORT_PROBE_MAX_LEN := 4

  datatype Tiers = Tiers(exact: nat, word: nat, subseq: nat)

  const NAME_TIERS := Tiers(100, 80, 40)
  const DESC_TIERS := Tiers(20, 15, 10)
  const TAG_TIERS := Tiers(8, 5, 3)

  function ScoreField(haystack: string, probe: string, tiers: Tiers): nat {
    if probe == "" || haystack == "" then 0
    else
      var idx := IndexOf(haystack, probe, 0);
      if idx != -1 then
        (if WordStart(haystack, idx) then tiers.word
         else if |probe| <= SHORT_PROBE_MAX_LEN then 0
         else tiers.exact)
      else if |probe| < 3 then 0
      else if WindowMatch(haystack, probe) then tiers.subseq
      else 0
  }

  lemma {:induction false} IndexOfFirst(haystack: string, probe: string, from: nat)
    requires from <= |haystack|
    ensures var idx := IndexOf(haystack, probe, from);
      && (idx == -1 <==> forall i :: from <= i ==> !OccursAt(haystack, probe, i))
      && (idx != -1 ==> OccursAt(haystack, probe, idx) && forall i :: from <= i < idx ==> !OccursAt(haystack, probe, i))
    decreases |haystack| - from
  {
    if !OccursAt(haystack, probe, from) && from < |haystack| {
      IndexOfFirst(haystack, probe, from + 1);
    }
  }

  /** The first place the probe occurs at. */
  predicate FirstAt(haystack: string, probe: string, i: int) {
    OccursAt(haystack, probe, i) && forall j :: 0 <= j < i ==> !OccursAt(haystack, probe, j)
  }

  /**
   * A probe that occurs earns the word tier exactly if its first occurrence starts a word. Otherwise it
   * earns the mid-word tier if it is longer than four characters, and nothing if not.
   */
  lemma OccurringScore(haystack: string, probe: string, tiers: Tiers, first: int)
    requires probe != "" && FirstAt(haystack, probe, first)
    ensures ScoreField(haystack, probe, tiers)
         == if first == 0 || !Alphanumeric(haystack[first - 1]) then tiers.word else if |probe| > 4 then tiers.exact else 0
  {
    IndexOfFirst(haystack, probe, 0);
  }

  /** A longer probe that occurs anywhere scores. */
  lemma LongProbeScores(haystack: string, probe: string, tiers: Tiers, at: int)
    requires |probe| > 4 && OccursAt(haystack, probe, at) && tiers.word > 0 && tiers.exact > 0
    ensures ScoreField(haystack, probe, tiers) > 0
  {
    IndexOfFirst(haystack, probe, 0);
  }

  /** A probe that does not occur earns the lowest tier exactly if it has three characters and the window matcher accepts it. */
  lemma AbsentScore(haystack: string, probe: string, tiers: Tiers)
    requires probe != "" && forall i :: !OccursAt(haystack, probe, i)
    ensures ScoreField(haystack, probe, tiers) == if |probe| >= 3 && WindowMatch(haystack, probe) then tiers.subseq else 0
  {
    IndexOfFirst(haystack, probe, 0);
  }

  /**
   * A hit inside a word outranks one at the start of a word, in the same field, exactly if the probe is
   * longer than four characters.
   */
  lemma MidWordOutranks(mid: string, start: string, probe: string, tiers: Tiers, i: int, j: int)
    requires tiers in {NAME_TIERS, DESC_TIERS, TAG_TIERS} && probe != ""
    requires FirstAt(mid, probe, i) && i > 0 && Alphanumeric(mid[i - 1])
    requires FirstAt(start, probe, j) && (j == 0 || !Alphanumeric(start[j - 1]))
    ensures ScoreField(mid, probe, tiers) > ScoreField(start, probe, tiers) <==> |probe| > 4
  {
    OccurringScore(mid, probe, tiers, i);
    OccurringScore(start, probe, tiers, j);
  }

  /** "longsword" scores more for "sword" than "sword" does. */
  lemma LongswordBeforeSword(probe: string)
    requires probe == "sword"
    ensures ScoreField("longsword", probe, NAME_TIERS) == 100 && ScoreField("sword", probe, NAME_TIERS) == 80
  {
    var h := "longsword";
    assert h[4..9] == probe && "sword"[0..5] == probe;
    assert h[0..5] == "longs" && h[1..6] == "ongsw" && h[2..7] == "ngswo" && h[3..8] == "gswor";
    assert FirstAt(h, probe, 4) && FirstAt("sword", probe, 0);
    OccurringScore(h, probe, NAME_TIERS, 4);
    OccurringScore("sword", probe, NAME_TIERS, 0);
  }

  /**
   * A short probe standing at the start of some word earns the word tier exactly when no mid-word
   * occurrence comes before every such start: only the first occurrence is looked at.
   */
  lemma WordHit(haystack: string, probe: string, tiers: Tiers, at: nat)
    requires 1 <= |probe| <= SHORT_PROBE_MAX_LEN && tiers.word > 0
    requires OccursAt(haystack, probe, at) && WordStart(haystack, at)
    ensures ScoreField(haystack, probe, tiers) in {0, tiers.word}
    ensures ScoreField(haystack, probe, tiers) == tiers.word
       <==> exists i :: OccursAt(haystack, probe, i) && WordStart(haystack, i)
              && forall j :: 0 <= j < i ==> !OccursAt(haystack, probe, j)
  {
    IndexOfFirst(haystack, probe, 0);
  }

  /** "ring" is a word of the text, yet the text scores nothing. */
  lemma WordHitMissed()
    ensures OccursAt("wearing ring", "ring", 8) && WordStart("wearing ring", 8)
    ensures ScoreField("wearing ring", "ring", DESC_TIERS) == 0
  {
    var h := "wearing ring";
    assert h[8..12] == "ring" && h[3..7] == "ring";
    assert h[0..4] == "wear" && h[1..5] == "eari" && h[2..6] == "arin";
    assert IndexOf(h, "ring", 3) == 3;
    assert IndexOf(h, "ring", 2) == 3;
    assert IndexOf(h, "ring", 1) == 3;
    assert IndexOf(h, "ring", 0) == 3;
  }

  /** A short probe that does not occur at all scores nothing exactly if it is too short for the window matcher or that finds no match. */
  lemma ShortProbeAbsent(haystack: string, probe: string, tiers: Tiers)
    requires 1 <= |probe| <= SHORT_PROBE_MAX_LEN && haystack != "" && tiers.subseq > 0
    requires forall i :: !OccursAt(haystack, probe, i)
    ensures ScoreField(haystack, probe, tiers) == 0 <==> |probe| < 3 || !WindowMatch(haystack, probe)
  {
    IndexOfFirst(haystack, probe, 0);
  }

  /** "rng" does not occur in "ring", and scores all the same. */
  lemma ShortProbeAbsentScores(haystack: string, probe: string, tiers: Tiers)
    requires haystack == "ring" && probe == "rng" && tiers.subseq > 0
    ensures (forall i :: !OccursAt(haystack, probe, i)) && ScoreField(haystack, probe, tiers) == tiers.subseq
  {
    assert haystack[0..3] == "rin" && haystack[1..4] == "ing";
    forall i ensures !OccursAt(haystack, probe, i) {
      assert i == 0 || i == 1 || i < 0 || i > 1;
    }
    IndexOfFirst(haystack, probe, 0);
    assert ScanTo(haystack, probe, 1) == Scan(1, 0);
    assert ScanTo(haystack, probe, 2) == Scan(1, 0);
    assert ScanTo(haystack, probe, 3) == Scan(2, 0);
    assert ScanTo(haystack, probe, 4) == Scan(3, 0);
  }

  // ---------------------------------------------------------------- scoring an item

  datatype Item = Item(name: string, description: string, tags: seq<string>)

  function LowerChar(c: char): char {
    if 'A' <= c <= 'Z' then c - 'A' + 'a' else c
  }

  function Lower(s: string): string {
    seq(|s|, (i: nat) requires i < |s| => LowerChar(s[i]))
  }

  function BestTag(tags: seq<string>, probe: string): nat {
    if tags == [] then 0
    else
      var best := BestTag(tags[..|tags| - 1], probe);
      var score := ScoreField(Lower(tags[|tags| - 1]), probe, TAG_TIERS);
      if score > best then score else best
  }

  /** It is the best: no tag scores more, and unless nothing scores some tag scores as much. */
  lemma {:induction false} BestTagIsMaximum(tags: seq<string>, probe: string)
    ensures forall i :: 0 <= i < |tags| ==> ScoreField(Lower(tags[i]), probe, TAG_TIERS) <= BestTag(tags, probe)
    ensures BestTag(tags, probe) > 0 ==>
              exists i :: 0 <= i < |tags| && ScoreField(Lower(tags[i]), probe, TAG_TIERS) == BestTag(tags, probe)
  {
    if tags != [] {
      var k := |tags| - 1;
      BestTagIsMaximum(tags[..k], probe);
      var best := BestTag(tags[..k], probe);
      if best > 0 {
        var i :| 0 <= i < k && ScoreField(Lower(tags[..k][i]), probe, TAG_TIERS) == best;
        assert tags[i] == tags[..k][i];
      }
      forall i | 0 <= i < |tags| ensures ScoreField(Lower(tags[i]), probe, TAG_TIERS) <= BestTag(tags, probe) {
        assert i < k ==> tags[i] == tags[..k][i];
      }
    }
  }

  function ProbeScore(item: Item, probe: string): nat {
    ScoreField(Lower(item.name), probe, NAME_TIERS)
    + ScoreField(Lower(item.description), probe, DESC_TIERS)
    + BestTag(item.tags, probe)
  }

  method ScoreProbeAgainstItem(item: Item, probe: string) returns (score: nat)
    ensures score == ProbeScore(item, probe)
  {
    score := ScoreField(Lower(item.name), probe, NAME_TIERS);
    score := score + ScoreField(Lower(item.description), probe, DESC_TIERS);
    var bestTagScore := 0;
    for i := 0 to |item.tags|
      invariant bestTagScore == BestTag(item.tags[..i], probe)
    {
      assert item.tags[..i + 1][..i] == item.tags[..i];
      var tagScore := ScoreField(Lower(item.tags[i]), probe, TAG_TIERS);
      if tagScore > bestTagScore {
        bestTagScore := tagScore;
      }
    }
    assert item.tags[..|item.tags|] == item.tags;
    score := score + bestTagScore;
  }

  lemma FieldScores(haystack: string, probe: string, tiers: Tiers)
    ensures ScoreField(haystack, probe, tiers) in {0, tiers.exact, tiers.word, tiers.subseq}
  {
  }

  lemma BestTagAtMost(tags: seq<string>, probe: string)
    ensures BestTag(tags, probe) <= 8
  {
    if tags != [] {
      FieldScores(Lower(tags[|tags| - 1]), probe, TAG_TIERS);
    }
  }

  /** A probe that hits the name outweighs one that does not, and one that hits the description outweighs one that hits tags only. */
  lemma FieldsWeighed(item: Item, other: Item, probe: string)
    ensures var name := ScoreField(Lower(item.name), probe, NAME_TIERS);
            var otherName := ScoreField(Lower(other.name), probe, NAME_TIERS);
            var description := ScoreField(Lower(item.description), probe, DESC_TIERS);
            var otherDescription := ScoreField(Lower(other.description), probe, DESC_TIERS);
      && (name > 0 && otherName == 0 ==> ProbeScore(item, probe) > ProbeScore(other, probe))
      && (name == otherName == 0 && description > 0 && otherDescription == 0 ==> ProbeScore(item, probe) > ProbeScore(other, probe))
      && (name == description == 0 ==> ProbeScore(item, probe) == BestTag(item.tags, probe))
  {
    FieldScores(Lower(item.name), probe, NAME_TIERS);
    FieldScores(Lower(item.description), probe, DESC_TIERS);
    FieldScores(Lower(other.description), probe, DESC_TIERS);
    BestTagAtMost(other.tags, probe);
  }

  /** The hits of a probe in the several fields add up. */
  lemma FieldsAdd(item: Item, probe: string)
    ensures ProbeScore(item, probe) == ProbeScore(item.(description := "", tags := []), probe)
                                     + ProbeScore(item.(name := "", tags := []), probe)
                                     + ProbeScore(item.(name := "", description := ""), probe)
    ensures ProbeScore(item.(description := "", tags := []), probe) == ScoreField(Lower(item.name), probe, NAME_TIERS)
    ensures ProbeScore(item.(name := "", tags := []), probe) == ScoreField(Lower(item.description), probe, DESC_TIERS)
  {
  }

  function Scorer(item: Item): string -> nat {
    (probe: string) => ProbeScore(item, probe)
  }

  function Sum(score: string -> nat, probes: seq<string>): nat {
    if probes == [] then 0 else Sum(score, probes[..|probes| - 1]) + score(probes[|probes| - 1])
  }

  predicate AllPositive(score: string -> nat, probes: seq<string>) {
    forall i :: 0 <= i < |probes| ==> score(probes[i]) > 0
  }

  function Total(item: Item, probes: seq<string>): nat {
    Sum(Scorer(item), probes)
  }

  /** Every probe scores on the item. */
  predicate Hits(item: Item, probes: seq<string>) {
    AllPositive(Scorer(item), probes)
  }

  // ---------------------------------------------------------------- searching

  const STOPWORDS: set<string> := {"a", "an", "and", "for", "in", "of", "on", "or", "the", "to", "with"}

  predicate Whitespace(c: char) {
    c == ' ' || '\t' <= c <= '\r'
  }

  function WordLength(s: string): (n: nat)
    ensures n <= |s|
    ensures forall i :: 0 <= i < n ==> !Whitespace(s[i])
    ensures n < |s| ==> Whitespace(s[n])
  {
    if s == "" || Whitespace(s[0]) then 0 else 1 + WordLength(s[1..])
  }

  function Words(s: string): seq<string>
    decreases |s|
  {
    if s == "" then []
    else if Whitespace(s[0]) then Words(s[1..])
    else [s[..WordLength(s)]] + Words(s[WordLength(s)..])
  }

  function IsContent(word: string): bool {
    word !in STOPWORDS
  }

  function Probes(query: string): seq<string> {
    Filter(Words(Lower(query)), IsContent)
  }

  datatype Hit = Hit(item: Item, score: int)

  /** Higher scores first, then shorter names. */
  function HitRank(h: Hit): (int, int) {
    (-h.score, |h.item.name|)
  }

  function Scored(items: seq<Item>, probes: seq<string>): seq<Hit> {
    if items == [] then []
    else
      var item := items[|items| - 1];
      Scored(items[..|items| - 1], probes) + (if Hits(item, probes) then [Hit(item, Total(item, probes))] else [])
  }

  function Unranked(items: seq<Item>): seq<Hit> {
    seq(|items|, (i: nat) requires i < |items| => Hit(items[i], 0))
  }

  function Found(items: seq<Item>, probes: seq<string>): seq<Hit> {
    if probes == [] then Unranked(items) else StableSort(Scored(items, probes), HitRank)
  }

  /** The search's inner loop: sums the probes' scores, giving up at the first probe that misses. */
  method TotalUnlessMissed(item: Item, probes: seq<string>) returns (disqualified: bool, total: nat)
    ensures disqualified <==> !Hits(item, probes)
    ensures !disqualified ==> total == Total(item, probes)
  {
    total, disqualified := 0, false;
    ghost var score := Scorer(item);
    for i := 0 to |probes|
      invariant total == Sum(score, probes[..i]) && AllPositive(score, probes[..i])
      invariant !disqualified
    {
      assert probes[..i + 1] == probes[..i] + [probes[i]];
      var p := ScoreProbeAgainstItem(item, probes[i]);
      assert p == score(probes[i]);
      if p == 0 {
        return true, total;
      }
      SumSnoc(score, probes[..i], probes[i]);
      total := total + p;
    }
    assert probes[..|probes|] == probes;
  }

  lemma SumSnoc(score: string -> nat, probes: seq<string>, probe: string)
    ensures Sum(score, probes + [probe]) == Sum(score, probes) + score(probe)
  {
    assert (probes + [probe])[..|probes|] == probes;
  }

  method Search(query: string, items: seq<Item>) returns (scored: seq<Hit>)
    ensures scored == Found(items, Probes(query))
  {
    var rawProbes := Words(Lower(query));
    var probes := Filter(rawProbes, IsContent);
    if |probes| == 0 {
      return Unranked(items);
    }
    scored := [];
    for k := 0 to |items|
      invariant scored == Scored(items[..k], probes)
    {
      assert items[..k + 1][..k] == items[..k];
      var item := items[k];
      var disqualified, total := TotalUnlessMissed(item, probes);
      if !disqualified {
        scored := scored + [Hit(item, total)];
      }
    }
    assert items[..|items|] == items;
    scored := StableSort(scored, HitRank);
  }

  // ---------------------------------------------------------------- laws

  function HitItems(hits: seq<Hit>): seq<Item> {
    seq(|hits|, (i: nat) requires i < |hits| => hits[i].item)
  }

  function HitsAll(probes: seq<string>): Item -> bool {
    (item: Item) => Hits(item, probes)
  }

  /** The scored list is the catalogue restricted to the items every probe hits, in catalogue order, with their totals. */
  lemma {:induction false} ScoredIsCatalogue(items: seq<Item>, probes: seq<string>)
    ensures HitItems(Scored(items, probes)) == Filter(items, HitsAll(probes))
  {
    if items != [] {
      var front, item := items[..|items| - 1], items[|items| - 1];
      ScoredIsCatalogue(front, probes);
      ScoredSnoc(front, item, probes);
      FilterConcat(front, [item], HitsAll(probes));
      FilterHead(item, [], HitsAll(probes));
      assert items == front + [item] && [item] + [] == [item];
    }
  }

  lemma ScoredSnoc(front: seq<Item>, item: Item, probes: seq<string>)
    ensures HitItems(Scored(front + [item], probes))
         == HitItems(Scored(front, probes)) + if HitsAll(probes)(item) then [item] else []
  {
    assert (front + [item])[..|front|] == front;
    HitItemsSnoc(Scored(front, probes), Hit(item, Total(item, probes)));
  }

  lemma {:induction false} ScoredTotals(items: seq<Item>, probes: seq<string>)
    ensures forall h :: h in Scored(items, probes) ==> h.score == Total(h.item, probes)
  {
    if items != [] {
      ScoredTotals(items[..|items| - 1], probes);
    }
  }

  lemma HitItemsSnoc(hits: seq<Hit>, hit: Hit)
    ensures HitItems(hits + [hit]) == HitItems(hits) + [hit.item]
  {
  }

  /**
   * What a search with content probes returns: the hits of the catalogue, each once, by falling
   * score, then by rising name length, then in catalogue order; and nothing else has that order.
   */
  lemma SearchLaw(items: seq<Item>, probes: seq<string>, hits: seq<Hit>)
    requires probes != []
    ensures hits == Found(items, probes)
       <==> Ordered(hits, HitRank) && SameWithinRank(hits, Scored(items, probes), HitRank)
    ensures multiset(Found(items, probes)) == multiset(Scored(items, probes))
  {
    var scored := Scored(items, probes);
    SortOrdered(scored, HitRank);
    SortStable(scored, HitRank);
    if Ordered(hits, HitRank) && SameWithinRank(hits, scored, HitRank) {
      assert SameWithinRank(hits, Found(items, probes), HitRank);
      StableOrderUnique(hits, Found(items, probes), HitRank);
    }
  }

  /** Hits come by falling score, and for equal scores by rising length of the name; each has its total as its score. */
  lemma FoundRanked(items: seq<Item>, probes: seq<string>, i: nat, j: nat)
    requires probes != [] && i < j < |Found(items, probes)|
    ensures var hits := Found(items, probes);
      && (hits[i].score > hits[j].score || (hits[i].score == hits[j].score && |hits[i].item.name| <= |hits[j].item.name|))
      && hits[i].score == Total(hits[i].item, probes)
  {
    var scored := Scored(items, probes);
    SortOrdered(scored, HitRank);
    SearchLaw(items, probes, Found(items, probes));
    ScoredTotals(items, probes);
    assert Found(items, probes)[i] in multiset(scored);
  }

  lemma OmitSame(p: seq<string>, q: seq<string>, k: nat, j: nat)
    requires multiset(p) == multiset(q) && |p| == k + 1 && j < |q| && q[j] == p[k]
    ensures Omit(p, k) == p[..k] && multiset(p[..k]) == multiset(Omit(q, j))
  {
    OmitMultiset(p, k);
    OmitMultiset(q, j);
    assert Omit(p, k) == p[..k];
    assert multiset(p[..k]) == multiset(p) - multiset{p[k]};
    assert multiset(Omit(q, j)) == multiset(q) - multiset{q[j]};
  }

  lemma {:induction false} SumPermuted(score: string -> nat, p: seq<string>, q: seq<string>)
    requires multiset(p) == multiset(q)
    ensures Sum(score, p) == Sum(score, q) && (AllPositive(score, p) <==> AllPositive(score, q))
    decreases |p|
  {
    if p == [] {
      assert |multiset(q)| == 0;
    } else {
      var k := |p| - 1;
      assert p[k] in multiset(q);
      var j :| 0 <= j < |q| && q[j] == p[k];
      OmitSame(p, q, k, j);
      SumPermuted(score, p[..k], Omit(q, j));
      SumOmit(score, q, j);
      PositiveOmit(score, q, j);
      PositiveOmit(score, p, k);
    }
  }

  lemma {:induction false} SumOmit(score: string -> nat, q: seq<string>, j: nat)
    requires j < |q|
    ensures Sum(score, q) == Sum(score, Omit(q, j)) + score(q[j])
    decreases |q|
  {
    var k := |q| - 1;
    if j == k {
      assert Omit(q, j) == q[..k];
    } else {
      SumOmit(score, q[..k], j);
      assert Omit(q, j)[..k - 1] == Omit(q[..k], j);
    }
  }

  lemma PositiveOmit(score: string -> nat, q: seq<string>, j: nat)
    requires j < |q|
    ensures AllPositive(score, q) <==> AllPositive(score, Omit(q, j)) && score(q[j]) > 0
  {
    if AllPositive(score, Omit(q, j)) && score(q[j]) > 0 {
      forall i | 0 <= i < |q| ensures score(q[i]) > 0 {
        if i != j {
          assert q[i] == Omit(q, j)[if i < j then i else i - 1];
        }
      }
    }
  }

  lemma {:induction false} ScoredPermuted(items: seq<Item>, p: seq<string>, q: seq<string>)
    requires multiset(p) == multiset(q)
    ensures Scored(items, p) == Scored(items, q)
  {
    if items != [] {
      ScoredPermuted(items[..|items| - 1], p, q);
      SumPermuted(Scorer(items[|items| - 1]), p, q);
    }
  }

  /** The order of the probes does not matter: the whole ranked list is the same. */
  lemma ProbeOrderIrrelevant(items: seq<Item>, p: seq<string>, q: seq<string>)
    requires multiset(p) == multiset(q)
    ensures Found(items, p) == Found(items, q)
  {
    ScoredPermuted(items, p, q);
    if p == [] || q == [] {
      assert |multiset(p)| == |p| && |multiset(q)| == |q|;
    }
  }

  /** How often an item is returned. */
  lemma FoundCounts(items: seq<Item>, probes: seq<string>, item: Item)
    ensures multiset(HitItems(Found(items, probes)))[item] == if Hits(item, probes) then multiset(items)[item] else 0
  {
    if probes == [] {
      assert HitItems(Unranked(items)) == items;
    } else {
      var scored := Scored(items, probes);
      ScoredIsCatalogue(items, probes);
      SameItems(Found(items, probes), scored);
      FilterCounts(items, HitsAll(probes), item);
    }
  }

  lemma {:induction false} SameItems(a: seq<Hit>, b: seq<Hit>)
    requires multiset(a) == multiset(b)
    ensures multiset(HitItems(a)) == multiset(HitItems(b))
    decreases |a|
  {
    if a == [] {
      assert |multiset(b)| == 0;
    } else {
      assert a[0] in multiset(b);
      var j :| 0 <= j < |b| && b[j] == a[0];
      OmitMultiset(a, 0);
      OmitMultiset(b, j);
      assert Omit(a, 0) == a[1..];
      assert multiset(a[1..]) == multiset(a) - multiset{a[0]} == multiset(Omit(b, j));
      SameItems(a[1..], Omit(b, j));
      HitItemsOmit(a, 0);
      HitItemsOmit(b, j);
      OmitMultiset(HitItems(a), 0);
      OmitMultiset(HitItems(b), j);
    }
  }

  lemma HitItemsOmit(hits: seq<Hit>, j: nat)
    requires j < |hits|
    ensures HitItems(Omit(hits, j)) == Omit(HitItems(hits), j)
  {
  }

  /** One more word in the query never brings in an item, nor a second copy of one. */
  lemma MoreWordsFewerHits(items: seq<Item>, query: string, more: string, item: Item)
    ensures multiset(HitItems(Found(items, Probes(query + " " + more))))[item]
         <= multiset(HitItems(Found(items, Probes(query))))[item]
  {
    var longer := Probes(query + " " + more);
    assert Lower(query + " " + more) == Lower(query) + " " + Lower(more);
    WordsConcat(Lower(query), ' ', Lower(more));
    FilterConcat(Words(Lower(query)), Words(Lower(more)), IsContent);
    assert longer[..|Probes(query)|] == Probes(query);
    if Hits(item, longer) {
      PositivePrefix(Scorer(item), longer, |Probes(query)|);
    }
    FoundCounts(items, longer, item);
    FoundCounts(items, Probes(query), item);
  }

  lemma PositivePrefix(score: string -> nat, probes: seq<string>, n: nat)
    requires n <= |probes| && AllPositive(score, probes)
    ensures AllPositive(score, probes[..n])
  {
  }

  /** White space separates words. */
  lemma {:induction false} WordsConcat(a: string, c: char, b: string)
    requires Whitespace(c)
    ensures Words(a + [c] + b) == Words(a) + Words(b)
    decreases |a|
  {
    var s := a + [c] + b;
    if a == "" {
      assert s[1..] == b;
    } else if Whitespace(a[0]) {
      WordsConcat(a[1..], c, b);
      assert s[1..] == a[1..] + [c] + b;
    } else {
      var n := WordLength(a);
      WordLengthUnique(s, n);
      WordsConcat(a[n..], c, b);
      assert s[n..] == a[n..] + [c] + b;
      assert s[..n] == a[..n];
    }
  }

  /** Text without white space is one word; together with `WordsConcat` this says what the words of any text are. */
  lemma {:induction false} OneWord(s: string)
    requires forall i :: 0 <= i < |s| ==> !Whitespace(s[i])
    ensures Words(s) == if s == "" then [] else [s]
  {
    if s != "" {
      WholeWord(s);
      assert s[..|s|] == s && s[|s|..] == "";
    }
  }

  lemma {:induction false} WholeWord(s: string)
    requires forall i :: 0 <= i < |s| ==> !Whitespace(s[i])
    ensures WordLength(s) == |s|
  {
    if s != "" {
      WholeWord(s[1..]);
    }
  }

  lemma {:induction false} WordLengthUnique(s: string, n: nat)
    requires n < |s| && Whitespace(s[n])
    requires forall i :: 0 <= i < n ==> !Whitespace(s[i])
    ensures WordLength(s) == n
  {
    if n > 0 {
      WordLengthUnique(s[1..], n - 1);
    }
  }

  /** The stopwords among the words are not searched for, and a query of nothing else returns the whole catalogue as it is. */
  lemma StopwordsDropped(query: string, items: seq<Item>, word: string)
    ensures word in Probes(query)
       <==> word in Words(Lower(query))
            && word !in {"a", "an", "and", "for", "in", "of", "on", "or", "the", "to", "with"}
    ensures (forall w :: w in Words(Lower(query)) ==> w in STOPWORDS) ==>
              HitItems(Found(items, Probes(query))) == items && forall h :: h in Found(items, Probes(query)) ==> h.score == 0
  {
    if forall w :: w in Words(Lower(query)) ==> w in STOPWORDS {
      FilterNone(Words(Lower(query)), IsContent);
    }
  }

  /** The two differ at most in the case of ASCII letters. */
  predicate SameButCase(a: string, b: string) {
    && |a| == |b|
    && forall i :: 0 <= i < |a| ==> a[i] == b[i] || OtherCase(a[i], b[i]) || OtherCase(b[i], a[i])
  }

  predicate OtherCase(upper: char, lower: char) {
    'A' <= upper <= 'Z' && lower as int == upper as int + 32
  }

  lemma LowerSame(a: string, b: string)
    requires SameButCase(a, b)
    ensures Lower(a) == Lower(b)
  {
    forall i | 0 <= i < |a| ensures Lower(a)[i] == Lower(b)[i] {
      assert a[i] == b[i] || OtherCase(a[i], b[i]) || OtherCase(b[i], a[i]);
    }
  }

  predicate ItemsSameButCase(a: Item, b: Item) {
    && SameButCase(a.name, b.name) && SameButCase(a.description, b.description)
    && |a.tags| == |b.tags| && forall i :: 0 <= i < |a.tags| ==> SameButCase(a.tags[i], b.tags[i])
  }

  lemma {:induction false} BestTagSame(a: seq<string>, b: seq<string>, probe: string)
    requires |a| == |b| && forall i :: 0 <= i < |a| ==> SameButCase(a[i], b[i])
    ensures BestTag(a, probe) == BestTag(b, probe)
  {
    if a != [] {
      var k := |a| - 1;
      BestTagSame(a[..k], b[..k], probe);
      LowerSame(a[k], b[k]);
    }
  }

  lemma {:induction false} TotalSame(a: Item, b: Item, probes: seq<string>)
    requires ItemsSameButCase(a, b)
    ensures Total(a, probes) == Total(b, probes) && (Hits(a, probes) <==> Hits(b, probes))
  {
    ScoresSame(a, b);
    SumSame(Scorer(a), Scorer(b), probes);
  }

  lemma ScoresSame(a: Item, b: Item)
    requires ItemsSameButCase(a, b)
    ensures forall probe :: Scorer(a)(probe) == Scorer(b)(probe)
  {
    LowerSame(a.name, b.name);
    LowerSame(a.description, b.description);
    forall probe ensures Scorer(a)(probe) == Scorer(b)(probe) {
      BestTagSame(a.tags, b.tags, probe);
    }
  }

  lemma {:induction false} SumSame(f: string -> nat, g: string -> nat, probes: seq<string>)
    requires forall probe :: f(probe) == g(probe)
    ensures Sum(f, probes) == Sum(g, probes)
  {
    if probes != [] {
      SumSame(f, g, probes[..|probes| - 1]);
    }
  }

  /** Upper and lower case are the same to the search, in the query and in the catalogue. */
  lemma CaseIgnored(a: Item, b: Item, query: string, other: string)
    requires ItemsSameButCase(a, b) && SameButCase(query, other)
    ensures Probes(query) == Probes(other)
    ensures Total(a, Probes(query)) == Total(b, Probes(other)) && (Hits(a, Probes(query)) <==> Hits(b, Probes(other)))
  {
    LowerSame(query, other);
    TotalSame(a, b, Probes(query));
  }
}
