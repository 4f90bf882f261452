/** How long a text the window matcher of the search (packages/rules/src/search.ts) decides exactly. */
module Windows {
  import opened Search
  import opened Sequences

  ghost predicate HasWindow(haystack: string, needle: string) {
    exists at: seq<nat> :: SpellsInWindow(at, needle, haystack)
  }

  /** The matcher finds a window exactly if there is one. */
  ghost predicate ExactOn(haystack: string, needle: string) {
    WindowMatch(haystack, needle) <==> HasWindow(haystack, needle)
  }

  ghost predicate ExactUpTo(needle: string, bound: nat) {
    forall haystack: string :: |haystack| <= bound ==> ExactOn(haystack, needle)
  }

  /** One character over and over. */
  predicate Constant(needle: string) {
    forall k :: 0 <= k < |needle| ==> needle[k] == needle[0]
  }

  lemma MatchHasWindow(haystack: string, needle: string)
    requires WindowMatch(haystack, needle)
    ensures HasWindow(haystack, needle)
  {
    var at := MatchSound(haystack, needle);
    assert SpellsInWindow(at, needle, haystack);
  }

  /** On text no longer than the window every subsequence fits it. */
  lemma ExactOnShort(haystack: string, needle: string)
    requires |haystack| <= MaxSpan(|needle|)
    ensures ExactOn(haystack, needle)
  {
    MatchExactOnShort(haystack, needle);
    if HasWindow(haystack, needle) {
      var at: seq<nat> :| SpellsInWindow(at, needle, haystack);
      assert Spells(at, needle, haystack);
    }
    if WindowMatch(haystack, needle) {
      MatchHasWindow(haystack, needle);
    }
  }

  // ---------------------------------------------------------------- up to two of one character: always

  /** Until it is done the scan has the latest occurrence as its start. */
  lemma {:induction false} LatestStart(haystack: string, needle: string, p: nat, upTo: nat)
    requires Constant(needle) && 1 <= |needle| <= 2 && p < upTo <= |haystack| && haystack[p] == needle[0]
    requires ScanTo(haystack, needle, upTo).matched < |needle|
    ensures ScanTo(haystack, needle, upTo).matched == 1 && p <= ScanTo(haystack, needle, upTo).first < upTo
  {
    if upTo - 1 > p {
      LatestStart(haystack, needle, p, upTo - 1);
    } else {
      FirstBehind(haystack, needle, p);
    }
  }

  lemma {:induction false} FirstBehind(haystack: string, needle: string, upTo: nat)
    requires needle != [] && upTo <= |haystack|
    ensures var scan := ScanTo(haystack, needle, upTo);
      if scan.matched == 0 then scan.first == -1 else 0 <= scan.first < upTo
  {
    if upTo > 0 {
      FirstBehind(haystack, needle, upTo - 1);
    }
  }

  lemma PairAlwaysExact(haystack: string, needle: string)
    requires Constant(needle) && |needle| <= 2
    ensures ExactOn(haystack, needle)
  {
    if WindowMatch(haystack, needle) {
      MatchHasWindow(haystack, needle);
    } else if HasWindow(haystack, needle) {
      var at: seq<nat> :| SpellsInWindow(at, needle, haystack);
      SpellsFits(at, needle, haystack);
      var p, q := at[0], at[|at| - 1];
      assert haystack[p] == needle[0] && haystack[q] == needle[0];
      if ScanTo(haystack, needle, q + 1).matched < |needle| {
        LatestStart(haystack, needle, p, q + 1);
        if p < q {
          if ScanTo(haystack, needle, q).matched < |needle| {
            LatestStart(haystack, needle, p, q);
          }
        }
      }
      ScanStops(haystack, needle, q + 1, |haystack|);
    }
  }

  // ---------------------------------------------------------------- longer runs of one character: one more

  /** The scan only looks at what it has read. */
  lemma {:induction false} ScanPrefix(haystack: string, needle: string, k: nat, upTo: nat)
    requires needle != [] && upTo <= k <= |haystack|
    ensures ScanTo(haystack[..k], needle, upTo) == ScanTo(haystack, needle, upTo)
  {
    if upTo > 0 {
      ScanPrefix(haystack, needle, k, upTo - 1);
    }
  }

  /** A first character that does not begin the needle only shifts the scan. */
  lemma {:induction false} ScanShifted(haystack: string, needle: string, upTo: nat)
    requires needle != [] && haystack != [] && haystack[0] != needle[0] && upTo < |haystack|
    ensures var scan, tail := ScanTo(haystack, needle, upTo + 1), ScanTo(haystack[1..], needle, upTo);
      scan.matched == tail.matched && scan.first == (if tail.first == -1 then -1 else tail.first + 1)
  {
    FirstBehind(haystack[1..], needle, upTo);
    if upTo == 0 {
      assert ScanTo(haystack, needle, 0) == Scan(0, -1);
    } else {
      ScanShifted(haystack, needle, upTo - 1);
      FirstBehind(haystack[1..], needle, upTo - 1);
      assert haystack[1..][upTo - 1] == haystack[upTo];
    }
  }

  lemma MatchEarly(haystack: string, needle: string, k: nat)
    requires needle != [] && |needle| <= k <= |haystack| && WindowMatch(haystack[..k], needle)
    ensures WindowMatch(haystack, needle)
  {
    ScanPrefix(haystack, needle, k, k);
    ScanStops(haystack, needle, k, |haystack|);
  }

  /** Of a constant needle, and a text one longer than the window, some window leaves out the first or the last character. */
  lemma RunExactOneOver(haystack: string, needle: string)
    requires Constant(needle) && |needle| >= 3 && |haystack| == MaxSpan(|needle|) + 1
    ensures ExactOn(haystack, needle)
  {
    if WindowMatch(haystack, needle) {
      MatchHasWindow(haystack, needle);
    } else if HasWindow(haystack, needle) {
      var at: seq<nat> :| SpellsInWindow(at, needle, haystack);
      if at[|at| - 1] < |haystack| - 1 {
        FrontMatches(haystack, needle, at);
      } else if haystack[0] == needle[0] {
        EarlierSpelling(haystack, needle, at);
      } else {
        TailMatches(haystack, needle, at);
      }
    }
  }

  /** The last position gives way to an occurrence before the first. */
  lemma EarlierSpelling(haystack: string, needle: string, at: seq<nat>)
    requires Constant(needle) && |needle| >= 2 && |haystack| == MaxSpan(|needle|) + 1 && haystack[0] == needle[0]
    requires Spells(at, needle, haystack) && at[0] > 0
    ensures WindowMatch(haystack, needle)
  {
    var m := |needle|;
    var earlier := [0] + at[..m - 1];
    assert forall i :: 0 < i < m ==> earlier[i] == at[i - 1];
    forall i | 0 <= i < m ensures haystack[earlier[i]] == needle[i] {
      if i > 0 {
        assert haystack[at[i - 1]] == needle[i - 1];
      }
    }
    assert at[m - 2] < at[m - 1];
    FrontMatches(haystack, needle, earlier);
  }

  lemma TailMatches(haystack: string, needle: string, at: seq<nat>)
    requires needle != [] && |haystack| == MaxSpan(|needle|) + 1 && haystack[0] != needle[0]
    requires Spells(at, needle, haystack) && at[0] > 0
    ensures WindowMatch(haystack, needle)
  {
    var tail := haystack[1..];
    forall i | 0 <= i < |at| ensures at[i] > 0 {
      assert i > 0 ==> at[0] < at[i];
    }
    var shifted := seq(|at|, (i: nat) requires i < |at| => (at[i] - 1) as nat);
    assert Spells(shifted, needle, tail);
    MatchExactOnShort(tail, needle);
    ScanShifted(haystack, needle, |tail|);
  }

  lemma FrontMatches(haystack: string, needle: string, at: seq<nat>)
    requires needle != [] && |haystack| == MaxSpan(|needle|) + 1
    requires Spells(at, needle, haystack) && at[|at| - 1] < |haystack| - 1
    ensures WindowMatch(haystack, needle)
  {
    var k := |haystack| - 1;
    assert Spells(at, needle, haystack[..k]);
    MatchExactOnShort(haystack[..k], needle);
    MatchEarly(haystack, needle, k);
  }

  // ---------------------------------------------------------------- texts whose window is missed

  function Repeat(c: char, n: nat): string {
    seq(n, _ => c)
  }

  /** The first character that differs from the needle's first. */
  ghost predicate Turns(needle: string, k: nat) {
    0 < k < |needle| && needle[k] != needle[0] && forall i :: 0 <= i < k ==> needle[i] == needle[0]
  }

  lemma {:induction false} TurnsSomewhere(needle: string, upTo: nat) returns (k: nat)
    requires upTo <= |needle| && exists i :: 0 <= i < upTo && needle[i] != needle[0]
    ensures Turns(needle, k)
  {
    if exists i :: 0 <= i < upTo - 1 && needle[i] != needle[0] {
      k := TurnsSomewhere(needle, upTo - 1);
    } else {
      k := upTo - 1;
    }
  }

  /** The needle's first character too often and too early, and then its rest: one longer than the window. */
  function Dragged(needle: string, k: nat): string
    requires 0 < k < |needle|
  {
    Repeat(needle[0], MaxSpan(|needle|) + 1 - (|needle| - k)) + needle[k..]
  }

  lemma {:induction false} DraggedHead(needle: string, k: nat, upTo: nat)
    requires Turns(needle, k) && upTo <= MaxSpan(|needle|) + 1 - (|needle| - k)
    ensures ScanTo(Dragged(needle, k), needle, upTo) == Scan(if upTo < k then upTo else k, if upTo == 0 then -1 else 0)
  {
    if upTo > 0 {
      DraggedHead(needle, k, upTo - 1);
      assert Dragged(needle, k)[upTo - 1] == needle[0];
    }
  }

  lemma {:induction false} DraggedRest(needle: string, k: nat, j: nat)
    requires Turns(needle, k) && j < |needle| - k
    ensures ScanTo(Dragged(needle, k), needle, MaxSpan(|needle|) + 1 - (|needle| - k) + j) == Scan(k + j, 0)
  {
    var lead := MaxSpan(|needle|) + 1 - (|needle| - k);
    if j == 0 {
      DraggedHead(needle, k, lead);
    } else {
      DraggedRest(needle, k, j - 1);
      assert Dragged(needle, k)[lead + j - 1] == needle[k + j - 1];
    }
  }

  lemma DraggedMissed(needle: string, k: nat)
    requires Turns(needle, k)
    ensures |Dragged(needle, k)| == MaxSpan(|needle|) + 1 && !ExactOn(Dragged(needle, k), needle)
  {
    var m, h := |needle|, Dragged(needle, k);
    var from := |h| - m;
    DraggedRest(needle, k, m - k - 1);
    assert h[|h| - 1] == needle[m - 1];
    assert !WindowMatch(h, needle);
    var at := seq(m, (i: nat) requires i < m => from + i);
    assert SpellsInWindow(at, needle, h);
  }

  /** One early character, a gap, and then the run: two longer than the window. */
  function Gapped(needle: string): string
    requires |needle| >= 3
  {
    [needle[0]] + Repeat(if needle[0] == 'a' then 'b' else 'a', MaxSpan(|needle|) + 1 - |needle|) + needle
  }

  lemma {:induction false} GappedHead(needle: string, upTo: nat)
    requires Constant(needle) && |needle| >= 3 && 1 <= upTo <= MaxSpan(|needle|) + 2 - |needle|
    ensures ScanTo(Gapped(needle), needle, upTo) == Scan(1, 0)
  {
    if upTo > 1 {
      GappedHead(needle, upTo - 1);
      assert Gapped(needle)[upTo - 1] != needle[0];
    } else {
      assert ScanTo(Gapped(needle), needle, 0) == Scan(0, -1);
    }
  }

  lemma {:induction false} GappedRun(needle: string, j: nat)
    requires Constant(needle) && |needle| >= 3 && j <= |needle| - 2
    ensures ScanTo(Gapped(needle), needle, MaxSpan(|needle|) + 2 - |needle| + j) == Scan(1 + j, 0)
  {
    var lead := MaxSpan(|needle|) + 2 - |needle|;
    if j == 0 {
      GappedHead(needle, lead);
    } else {
      GappedRun(needle, j - 1);
      assert Gapped(needle)[lead + j - 1] == needle[j - 1] == needle[0];
    }
  }

  lemma GappedMissed(needle: string)
    requires Constant(needle) && |needle| >= 3
    ensures |Gapped(needle)| == MaxSpan(|needle|) + 2 && !ExactOn(Gapped(needle), needle)
  {
    var m, h, span := |needle|, Gapped(needle), MaxSpan(|needle|);
    GappedRun(needle, m - 2);
    assert h[span] == needle[m - 2] && h[span + 1] == needle[m - 1];
    assert ScanTo(h, needle, span + 1) == Scan(1, span);
    assert ScanTo(h, needle, span + 2) == Scan(2, span);
    assert !WindowMatch(h, needle);
    var at := seq(m, (i: nat) requires i < m => span + 2 - m + i);
    assert SpellsInWindow(at, needle, h);
  }

  // ---------------------------------------------------------------- the exact bound

  /** Whether the matcher decides every text of at most that length: the needle tells. */
  predicate Decided(needle: string, bound: nat) {
    if Constant(needle) then |needle| <= 2 || bound <= MaxSpan(|needle|) + 1 else bound <= MaxSpan(|needle|)
  }

  lemma DecidedExact(needle: string, bound: nat, haystack: string)
    requires Decided(needle, bound) && |haystack| <= bound
    ensures ExactOn(haystack, needle)
  {
    if |haystack| <= MaxSpan(|needle|) {
      ExactOnShort(haystack, needle);
    } else if |needle| <= 2 {
      PairAlwaysExact(haystack, needle);
    } else {
      RunExactOneOver(haystack, needle);
    }
  }

  /**
   * The matcher finds a window in every text of up to `bound` characters that has one exactly if the
   * text is no longer than the window, or one longer for a needle of one character three times or
   * more; for such a needle of up to two characters there is no bound.
   */
  lemma MatchExactUpTo(needle: string, bound: nat)
    ensures ExactUpTo(needle, bound) <==> Decided(needle, bound)
  {
    if Decided(needle, bound) {
      forall haystack: string | |haystack| <= bound ensures ExactOn(haystack, needle) {
        DecidedExact(needle, bound, haystack);
      }
    } else if Constant(needle) {
      GappedMissed(needle);
    } else {
      var k := TurnsSomewhere(needle, |needle|);
      DraggedMissed(needle, k);
    }
  }
}
