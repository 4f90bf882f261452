/** Subsequences, filtering and stable sorting of sequences. */
module Sequences {

  // ---------------------------------------------------------------- subsequences

  /** `at` lists increasing positions of `whole` that spell `part`. */
  ghost predicate Spells<T>(at: seq<nat>, part: seq<T>, whole: seq<T>) {
    && |at| == |part|
    && (forall i :: 0 <= i < |at| ==> at[i] < |whole| && whole[at[i]] == part[i])
    && (forall i, j :: 0 <= i < j < |at| ==> at[i] < at[j])
  }

  ghost predicate Subsequence<T(!new)>(part: seq<T>, whole: seq<T>) {
    exists at: seq<nat> :: Spells(at, part, whole)
  }

  /** Dropping the first element of both, when they agree. */
  lemma SpellsTail<T>(at: seq<nat>, part: seq<T>, whole: seq<T>) returns (rest: seq<nat>)
    requires Spells(at, part, whole) && part != [] && whole != []
    ensures Spells(rest, part[1..], whole[1..])
  {
    assert forall i :: 0 < i < |at| ==> at[0] < at[i];
    rest := seq<nat>(|at| - 1, (i: nat) requires i < |at| - 1 => at[i + 1] - 1);
  }

  /** Matching the first element as early as possible loses nothing. */
  lemma GreedyMatch<T(!new)>(part: seq<T>, whole: seq<T>)
    requires part != [] && whole != []
    ensures Subsequence(part, whole)
       <==> Subsequence(if whole[0] == part[0] then part[1..] else part, whole[1..])
  {
    if Subsequence(part, whole) {
      var at: seq<nat> :| Spells(at, part, whole);
      if whole[0] == part[0] {
        var rest := SpellsTail(at, part, whole);
      } else {
        assert forall i :: 0 <= i < |at| ==> at[0] <= at[i];
        var rest := seq<nat>(|at|, (i: nat) requires i < |at| => at[i] - 1);
        assert Spells(rest, part, whole[1..]);
      }
    }
    if whole[0] == part[0] && Subsequence(part[1..], whole[1..]) {
      var rest: seq<nat> :| Spells(rest, part[1..], whole[1..]);
      var at: seq<nat> := [0] + seq(|rest|, (i: nat) requires i < |rest| => rest[i] + 1);
      assert Spells(at, part, whole);
    }
    if whole[0] != part[0] && Subsequence(part, whole[1..]) {
      var rest: seq<nat> :| Spells(rest, part, whole[1..]);
      var at: seq<nat> := seq(|rest|, (i: nat) requires i < |rest| => rest[i] + 1);
      assert Spells(at, part, whole);
    }
  }

  // ---------------------------------------------------------------- filtering

  function Filter<T>(s: seq<T>, keep: T -> bool): (r: seq<T>)
    ensures |r| <= |s|
    ensures forall x | x in r :: x in s && keep(x)
    ensures forall x | x in s && keep(x) :: x in r
  {
    if s == [] then []
    else (if keep(s[0]) then [s[0]] else []) + Filter(s[1..], keep)
  }

  lemma FilterHead<T>(h: T, t: seq<T>, keep: T -> bool)
    ensures Filter([h] + t, keep) == if keep(h) then [h] + Filter(t, keep) else Filter(t, keep)
  {
    assert ([h] + t)[1..] == t;
  }

  lemma Regroup<T>(a: seq<T>, b: seq<T>, c: seq<T>)
    ensures a + (b + c) == (a + b) + c
  {
  }

  lemma Around<T>(s: seq<T>, g: nat)
    requires g < |s|
    ensures s == s[..g + 1] + s[g + 1..] && s[..g + 1] == s[..g] + [s[g]]
  {
  }

  lemma {:induction false} FilterConcat<T>(a: seq<T>, b: seq<T>, keep: T -> bool)
    ensures Filter(a + b, keep) == Filter(a, keep) + Filter(b, keep)
  {
    if a == [] {
      assert a + b == b;
    } else {
      var h, t := a[0], a[1..];
      FilterConcat(t, b, keep);
      Regroup([h], t, b);
      FilterHead(h, t + b, keep);
      FilterHead(h, t, keep);
      Regroup([h], Filter(t, keep), Filter(b, keep));
      assert [h] + t == a;
    }
  }

  lemma {:induction false} FilterAll<T>(s: seq<T>, keep: T -> bool)
    requires forall x :: x in s ==> keep(x)
    ensures Filter(s, keep) == s
  {
    if s != [] {
      FilterAll(s[1..], keep);
    }
  }

  lemma {:induction false} FilterNone<T>(s: seq<T>, keep: T -> bool)
    requires forall x :: x in s ==> !keep(x)
    ensures Filter(s, keep) == []
  {
    if s != [] {
      FilterNone(s[1..], keep);
    }
  }

  /** Two filters may be applied in either order. */
  lemma {:induction false} FilterTwice<T>(s: seq<T>, p: T -> bool, q: T -> bool)
    ensures Filter(Filter(s, p), q) == Filter(Filter(s, q), p)
  {
    if s != [] {
      var rp, rq := Filter(s[1..], p), Filter(s[1..], q);
      FilterTwice(s[1..], p, q);
      FilterConcat(if p(s[0]) then [s[0]] else [], rp, q);
      FilterConcat(if q(s[0]) then [s[0]] else [], rq, p);
    }
  }

  lemma {:induction false} FilterCounts<T>(s: seq<T>, keep: T -> bool, x: T)
    ensures multiset(Filter(s, keep))[x] == if keep(x) then multiset(s)[x] else 0
  {
    if s != [] {
      FilterCounts(s[1..], keep, x);
      assert s == [s[0]] + s[1..];
    }
  }

  function Omit<T>(s: seq<T>, j: nat): (r: seq<T>)
    requires j < |s|
    ensures |r| == |s| - 1
    ensures forall i :: 0 <= i < |r| ==> r[i] == s[if i < j then i else i + 1]
  {
    s[..j] + s[j + 1..]
  }

  lemma OmitMultiset<T>(s: seq<T>, j: nat)
    requires j < |s|
    ensures multiset(s) == multiset(Omit(s, j)) + multiset{s[j]}
  {
    assert s == s[..j] + [s[j]] + s[j + 1..];
    assert multiset(s) == multiset(s[..j]) + multiset{s[j]} + multiset(s[j + 1..]);
  }

  // ---------------------------------------------------------------- stable sorting

  /** Elements are compared by a pair of keys: the second one breaks ties of the first. */
  predicate Before(a: (int, int), b: (int, int)) {
    a.0 < b.0 || (a.0 == b.0 && a.1 < b.1)
  }

  lemma BeforeIsStrictOrder(a: (int, int), b: (int, int), c: (int, int))
    ensures Before(a, b) && Before(b, c) ==> Before(a, c)
    ensures Before(a, b) || a == b || Before(b, a)
  {
    assert a == (a.0, a.1) && b == (b.0, b.1);
  }

  /** Insertion keeps an element ahead of the later elements that rank equal with it. */
  function Insert<T>(x: T, s: seq<T>, rank: T -> (int, int)): (r: seq<T>)
    ensures multiset(r) == multiset(s) + multiset{x}
    ensures |r| == |s| + 1
  {
    if s == [] || !Before(rank(s[0]), rank(x)) then [x] + s
    else
      assert s == [s[0]] + s[1..];
      [s[0]] + Insert(x, s[1..], rank)
  }

  /** The result of the language's stable sort under the ranking. */
  function StableSort<T>(s: seq<T>, rank: T -> (int, int)): (r: seq<T>)
    ensures multiset(r) == multiset(s)
    ensures |r| == |s|
  {
    if s == [] then []
    else
      assert s == [s[0]] + s[1..];
      Insert(s[0], StableSort(s[1..], rank), rank)
  }

  ghost predicate Ordered<T>(s: seq<T>, rank: T -> (int, int)) {
    forall i, j :: 0 <= i < j < |s| ==> !Before(rank(s[j]), rank(s[i]))
  }

  /** Elements of one rank appear in `r` as they do in `s`. */
  ghost predicate SameWithinRank<T>(r: seq<T>, s: seq<T>, rank: T -> (int, int)) {
    forall v: (int, int) :: Filter(r, Ranked(rank, v)) == Filter(s, Ranked(rank, v))
  }

  function Ranked<T>(rank: T -> (int, int), v: (int, int)): T -> bool {
    x => rank(x) == v
  }

  lemma {:induction false} InsertOrdered<T>(x: T, s: seq<T>, rank: T -> (int, int))
    requires Ordered(s, rank)
    ensures Ordered(Insert(x, s, rank), rank)
  {
    if s != [] && Before(rank(s[0]), rank(x)) {
      InsertOrdered(x, s[1..], rank);
      var tail := Insert(x, s[1..], rank);
      forall j | 0 <= j < |tail| ensures !Before(rank(tail[j]), rank(s[0])) {
        assert tail[j] in multiset(tail);
        if tail[j] != x {
          assert tail[j] in multiset(s[1..]);
        }
      }
    }
  }

  lemma SwapEmpty<T>(a: seq<T>, b: seq<T>, c: seq<T>)
    requires a == [] || b == []
    ensures b + (a + c) == a + (b + c)
  {
    if a == [] {
      assert a + c == c && a + (b + c) == b + c;
    } else {
      assert b + c == c && b + (a + c) == a + c;
    }
  }

  lemma {:induction false} InsertKeepsRanks<T>(x: T, s: seq<T>, rank: T -> (int, int), v: (int, int))
    ensures Filter(Insert(x, s, rank), Ranked(rank, v)) == Filter([x], Ranked(rank, v)) + Filter(s, Ranked(rank, v))
  {
    var keep := Ranked(rank, v);
    if s == [] || !Before(rank(s[0]), rank(x)) {
      FilterConcat([x], s, keep);
    } else {
      InsertKeepsRanks(x, s[1..], rank, v);
      var tail := Insert(x, s[1..], rank);
      var fx, fh, ft := Filter([x], keep), Filter([s[0]], keep), Filter(s[1..], keep);
      assert fx == [] || fh == [] by {
        assert rank(s[0]) != rank(x);
      }
      FilterConcat([s[0]], tail, keep);
      FilterConcat([s[0]], s[1..], keep);
      assert [s[0]] + s[1..] == s;
      SwapEmpty(fx, fh, ft);
    }
  }

  lemma {:induction false} SortOrdered<T>(s: seq<T>, rank: T -> (int, int))
    ensures Ordered(StableSort(s, rank), rank)
  {
    if s != [] {
      SortOrdered(s[1..], rank);
      InsertOrdered(s[0], StableSort(s[1..], rank), rank);
    }
  }

  lemma {:induction false} SortStable<T>(s: seq<T>, rank: T -> (int, int))
    ensures SameWithinRank(StableSort(s, rank), s, rank)
  {
    if s != [] {
      var sorted := StableSort(s[1..], rank);
      SortStable(s[1..], rank);
      forall v: (int, int) ensures Filter(StableSort(s, rank), Ranked(rank, v)) == Filter(s, Ranked(rank, v)) {
        InsertKeepsRanks(s[0], sorted, rank, v);
        FilterConcat([s[0]], sorted, Ranked(rank, v));
      }
    }
  }

  lemma HeadHasItsRank<T>(a: seq<T>, b: seq<T>, rank: T -> (int, int))
    requires b != [] && SameWithinRank(a, b, rank)
    ensures exists x :: x in a && rank(x) == rank(b[0])
  {
    var keep := Ranked(rank, rank(b[0]));
    assert b[0] in Filter(b, keep);
    assert Filter(a, keep)[0] in a;
  }

  /** Being ordered, with every rank's elements in their original order, determines the result. */
  lemma {:induction false} StableOrderUnique<T>(a: seq<T>, b: seq<T>, rank: T -> (int, int))
    requires Ordered(a, rank) && Ordered(b, rank) && SameWithinRank(a, b, rank)
    ensures a == b
  {
    if a == [] {
      if b != [] {
        HeadHasItsRank(a, b, rank);
        assert false;
      }
    } else {
      assert a[0] in Filter(a, Ranked(rank, rank(a[0])));
      assert Filter(b, Ranked(rank, rank(a[0]))) != [];
      assert b[0] in Filter(b, Ranked(rank, rank(b[0])));
      assert b[0] in a && a[0] in b;
      assert rank(a[0]) == rank(b[0]);
      var keep := Ranked(rank, rank(a[0]));
      assert Filter(a, keep)[0] == a[0] && Filter(b, keep)[0] == b[0];
      forall v: (int, int) ensures Filter(a[1..], Ranked(rank, v)) == Filter(b[1..], Ranked(rank, v)) {
        assert Filter(a, Ranked(rank, v)) == Filter(b, Ranked(rank, v));
        var h := if rank(a[0]) == v then [a[0]] else [];
        assert Filter(a, Ranked(rank, v)) == h + Filter(a[1..], Ranked(rank, v));
        assert Filter(b, Ranked(rank, v)) == h + Filter(b[1..], Ranked(rank, v));
        assert Filter(a[1..], Ranked(rank, v)) == Filter(a, Ranked(rank, v))[|h|..];
      }
      StableOrderUnique(a[1..], b[1..], rank);
      assert a == [a[0]] + a[1..] && b == [b[0]] + b[1..];
    }
  }
}
