/** The turn cycle of the initiative tracker (packages/rules/src/initiative.ts). */
module Initiative {
  import opened FloorDivision
  import opened Sequences
  import opened Wrappers

  type Id = string

  /** Only the columns the cycle looks at; an unrolled combatant has no initiative. */
  datatype Combatant = Combatant(id: Id, initiative: Option<int>)

  datatype CycleState = CycleState(pointer: Option<Id>, round: int)

  /** Highest initiative first, unrolled rows last. */
  function Rank(c: Combatant): (int, int) {
    match c.initiative
    case Some(n) => (0, -n)
    case None => (1, 0)
  }

  function SortByInitiative(list: seq<Combatant>): seq<Combatant> {
    StableSort(list, Rank)
  }

  // ---------------------------------------------------------------- groups

  type Groups = seq<seq<Combatant>>

  ghost predicate Solid(gs: Groups) {
    forall i :: 0 <= i < |gs| ==> gs[i] != []
  }

  /** Adds a row to the last group if it ties with it, else opens a new group. */
  function Join(gs: Groups, c: Combatant): (r: Groups)
    requires Solid(gs)
    ensures Solid(r)
  {
    if gs != [] && gs[|gs| - 1][0].initiative == c.initiative
    then gs[..|gs| - 1] + [gs[|gs| - 1] + [c]]
    else gs + [[c]]
  }

  function GroupsOf(sorted: seq<Combatant>): (r: Groups)
    ensures Solid(r)
  {
    if sorted == [] then [] else Join(GroupsOf(sorted[..|sorted| - 1]), sorted[|sorted| - 1])
  }

  method DistinctInitiativeGroups(sorted: seq<Combatant>) returns (groups: Groups)
    ensures groups == GroupsOf(sorted)
  {
    groups := [];
    for i := 0 to |sorted|
      invariant groups == GroupsOf(sorted[..i])
    {
      var c := sorted[i];
      assert sorted[..i + 1][..i] == sorted[..i];
      if groups != [] && groups[|groups| - 1][0].initiative == c.initiative {
        groups := groups[|groups| - 1 := groups[|groups| - 1] + [c]];
      } else {
        groups := groups + [[c]];
      }
    }
    assert sorted[..|sorted|] == sorted;
  }

  function Flatten(gs: Groups): seq<Combatant> {
    if gs == [] then [] else Flatten(gs[..|gs| - 1]) + gs[|gs| - 1]
  }

  /** One initiative per group, strictly falling from group to group. */
  ghost predicate Tiers(gs: Groups) {
    && Solid(gs)
    && (forall i, j :: 0 <= i < |gs| && 0 <= j < |gs[i]| ==> Rank(gs[i][j]) == Rank(gs[i][0]))
    && (forall i, j :: 0 <= i < j < |gs| ==> Before(Rank(gs[i][0]), Rank(gs[j][0])))
  }

  lemma RankIsInitiative(a: Combatant, b: Combatant)
    ensures Rank(a) == Rank(b) <==> a.initiative == b.initiative
  {
  }

  /** Grouping a sorted list cuts it into tiers. */
  lemma {:induction false} GroupsAreTiers(s: seq<Combatant>)
    requires Ordered(s, Rank)
    ensures Tiers(GroupsOf(s)) && Flatten(GroupsOf(s)) == s
  {
    if s != [] {
      var k := |s| - 1;
      GroupsAreTiers(s[..k]);
      var gs: Groups := GroupsOf(s[..k]);
      if gs != [] {
        LastOfFlat(gs);
        assert !Before(Rank(s[k]), Rank(s[k - 1]));
      }
      JoinTiers(gs, s[k]);
      assert s == s[..k] + [s[k]];
    }
  }

  lemma JoinTiers(gs: Groups, c: Combatant)
    requires Tiers(gs)
    requires gs != [] ==> !Before(Rank(c), Rank(gs[|gs| - 1][0]))
    ensures Tiers(Join(gs, c)) && Flatten(Join(gs, c)) == Flatten(gs) + [c]
  {
    if gs != [] && gs[|gs| - 1][0].initiative == c.initiative {
      JoinLastTier(gs, c);
    } else {
      OpenTier(gs, c);
    }
  }

  lemma JoinLastTier(gs: Groups, c: Combatant)
    requires Tiers(gs) && gs != [] && gs[|gs| - 1][0].initiative == c.initiative
    ensures var r := gs[..|gs| - 1] + [gs[|gs| - 1] + [c]];
      Tiers(r) && Flatten(r) == Flatten(gs) + [c]
  {
    var front, last := gs[..|gs| - 1], gs[|gs| - 1];
    RankIsInitiative(last[0], c);
    FlattenSnoc(front, last + [c]);
    Regroup(Flatten(front), last, [c]);
    ReplaceLastTier(gs, last + [c]);
  }

  lemma OpenTier(gs: Groups, c: Combatant)
    requires Tiers(gs)
    requires gs != [] ==> !Before(Rank(c), Rank(gs[|gs| - 1][0])) && gs[|gs| - 1][0].initiative != c.initiative
    ensures Tiers(gs + [[c]]) && Flatten(gs + [[c]]) == Flatten(gs) + [c]
  {
    FlattenSnoc(gs, [c]);
    if gs != [] {
      AllBefore(gs, c);
      AddTier(gs, c);
    }
  }

  lemma AllBefore(gs: Groups, c: Combatant)
    requires Tiers(gs) && gs != []
    requires !Before(Rank(c), Rank(gs[|gs| - 1][0])) && gs[|gs| - 1][0].initiative != c.initiative
    ensures forall i :: 0 <= i < |gs| ==> Before(Rank(gs[i][0]), Rank(c))
  {
    RankIsInitiative(gs[|gs| - 1][0], c);
    var last := Rank(gs[|gs| - 1][0]);
    BeforeIsStrictOrder(last, Rank(c), last);
    forall i | 0 <= i < |gs| ensures Before(Rank(gs[i][0]), Rank(c)) {
      BeforeIsStrictOrder(Rank(gs[i][0]), last, Rank(c));
    }
  }

  lemma ReplaceLastTier(gs: Groups, g: seq<Combatant>)
    requires Tiers(gs) && gs != [] && g != []
    requires forall c :: c in g ==> Rank(c) == Rank(gs[|gs| - 1][0])
    ensures Tiers(gs[..|gs| - 1] + [g])
  {
    var k := |gs| - 1;
    var r := gs[..k] + [g];
    assert forall i :: 0 <= i < |r| ==> r[i] == if i < k then gs[i] else g;
    assert g[0] in g;
    forall i, j | 0 <= i < |r| && 0 <= j < |r[i]| ensures Rank(r[i][j]) == Rank(r[i][0]) {
      assert r[i][j] in r[i];
    }
    forall i, j | 0 <= i < j < |r| ensures Before(Rank(r[i][0]), Rank(r[j][0])) {
      assert Before(Rank(gs[i][0]), Rank(gs[j][0]));
    }
  }

  lemma AddTier(gs: Groups, c: Combatant)
    requires Tiers(gs)
    requires forall i :: 0 <= i < |gs| ==> Before(Rank(gs[i][0]), Rank(c))
    ensures Tiers(gs + [[c]])
  {
  }

  lemma CutTiers(gs: Groups, g: nat)
    requires Tiers(gs) && g < |gs|
    ensures Tiers(gs[..g] + gs[g + 1..])
  {
    var r := gs[..g] + gs[g + 1..];
    assert forall i :: 0 <= i < |r| ==> r[i] == if i < g then gs[i] else gs[i + 1];
    forall i, j | 0 <= i < j < |r| ensures Before(Rank(r[i][0]), Rank(r[j][0])) {
      assert Before(Rank(gs[if i < g then i else i + 1][0]), Rank(gs[if j < g then j else j + 1][0]));
    }
  }

  lemma LastOfFlat(gs: Groups)
    requires gs != [] && Tiers(gs)
    ensures Flatten(gs) != [] && Rank(Flatten(gs)[|Flatten(gs)| - 1]) == Rank(gs[|gs| - 1][0])
  {
    var last := gs[|gs| - 1];
    assert Flatten(gs)[|Flatten(gs)| - 1] == last[|last| - 1];
  }

  lemma GroupsOfSnoc(s: seq<Combatant>, c: Combatant)
    ensures GroupsOf(s + [c]) == Join(GroupsOf(s), c)
  {
    assert (s + [c])[..|s|] == s;
  }

  lemma FlattenSnoc(gs: Groups, g: seq<Combatant>)
    ensures Flatten(gs + [g]) == Flatten(gs) + g
  {
    assert (gs + [g])[..|gs|] == gs;
  }

  lemma TierBegins(front: Groups, c: Combatant)
    requires Tiers(front + [[c]]) && GroupsOf(Flatten(front)) == front
    ensures GroupsOf(Flatten(front) + [c]) == front + [[c]]
  {
    GroupsOfSnoc(Flatten(front), c);
    if front != [] {
      var k := |front| - 1;
      var gs: Groups := front + [[c]];
      assert gs[k] == front[k] && gs[k + 1] == [c];
      assert Before(Rank(gs[k][0]), Rank(gs[k + 1][0]));
      RankIsInitiative(front[k][0], c);
    }
  }

  lemma TierGrows(front: Groups, head: seq<Combatant>, c: Combatant)
    requires Tiers(front + [head + [c]]) && head != [] && GroupsOf(Flatten(front + [head])) == front + [head]
    ensures GroupsOf(Flatten(front + [head]) + [c]) == front + [head + [c]]
  {
    var last := head + [c];
    GroupsOfSnoc(Flatten(front + [head]), c);
    assert (front + [last])[|front|] == last && last[0] == head[0] && last[|head|] == c;
    RankIsInitiative(head[0], c);
    assert (front + [head])[..|front|] == front;
  }

  lemma ShorterTier(front: Groups, head: seq<Combatant>, c: Combatant)
    requires Tiers(front + [head + [c]]) && head != []
    ensures Tiers(front + [head])
  {
    var gs: Groups := front + [head + [c]];
    var r := front + [head];
    assert |r| == |gs| && forall i :: 0 <= i < |r| ==> r[i] == if i < |front| then gs[i] else head;
    assert gs[|front|] == head + [c];
    assert forall i :: 0 <= i < |r| ==> r[i] != [] && r[i][0] == gs[i][0];
    forall i, j | 0 <= i < |r| && 0 <= j < |r[i]| ensures Rank(r[i][j]) == Rank(r[i][0]) {
      assert r[i][j] == gs[i][j];
    }
    forall i, j | 0 <= i < j < |r| ensures Before(Rank(r[i][0]), Rank(r[j][0])) {
      assert Before(Rank(gs[i][0]), Rank(gs[j][0]));
    }
  }

  /** Tiers are what grouping their concatenation gives back. */
  lemma {:induction false} TiersAreGroups(gs: Groups)
    requires Tiers(gs)
    ensures GroupsOf(Flatten(gs)) == gs
    decreases |Flatten(gs)|
  {
    if gs != [] {
      var k := |gs| - 1;
      var front, last := gs[..k], gs[k];
      var head, c := last[..|last| - 1], last[|last| - 1];
      assert last == head + [c] && gs == front + [last];
      FlattenSnoc(front, last);
      if head == [] {
        TiersAreGroups(front);
        TierBegins(front, c);
      } else {
        ShorterTier(front, head, c);
        FlattenSnoc(front, head);
        Regroup(Flatten(front), head, [c]);
        TiersAreGroups(front + [head]);
        TierGrows(front, head, c);
      }
    }
  }

  lemma {:induction false} FlattenConcat(a: Groups, b: Groups)
    ensures Flatten(a + b) == Flatten(a) + Flatten(b)
  {
    if b == [] {
      assert a + b == a;
    } else {
      var k := |b| - 1;
      FlattenConcat(a, b[..k]);
      assert (a + b)[..|a + b| - 1] == a + b[..k];
      assert Flatten(a) + (Flatten(b[..k]) + b[k]) == (Flatten(a) + Flatten(b[..k])) + b[k];
    }
  }

  /** A tier holds exactly the rows of its initiative, in their order. */
  lemma {:induction false} TierIsTie(gs: Groups, i: nat)
    requires Tiers(gs) && i < |gs|
    ensures Filter(Flatten(gs), Ranked(Rank, Rank(gs[i][0]))) == gs[i]
  {
    var keep := Ranked(Rank, Rank(gs[i][0]));
    var k := |gs| - 1;
    FilterConcat(Flatten(gs[..k]), gs[k], keep);
    if i == k {
      OtherTiers(gs[..k], Rank(gs[i][0]));
      FilterAll(gs[k], keep);
    } else {
      TierIsTie(gs[..k], i);
      FilterNone(gs[k], keep);
    }
  }

  lemma {:induction false} OtherTiers(gs: Groups, v: (int, int))
    requires Tiers(gs)
    requires forall i :: 0 <= i < |gs| ==> Rank(gs[i][0]) != v
    ensures Filter(Flatten(gs), Ranked(Rank, v)) == []
  {
    if gs != [] {
      var k := |gs| - 1;
      OtherTiers(gs[..k], v);
      FilterConcat(Flatten(gs[..k]), gs[k], Ranked(Rank, v));
      FilterNone(gs[k], Ranked(Rank, v));
    }
  }

  /** The groups an encounter cycles through. */
  function Cycle(order: seq<Combatant>): Groups {
    GroupsOf(SortByInitiative(order))
  }

  /**
   * The cycle of an encounter: tiers of strictly falling initiative, each holding all the
   * combatants of one initiative in the order the DM entered them.
   */
  lemma CycleShape(order: seq<Combatant>)
    ensures Tiers(Cycle(order))
    ensures Flatten(Cycle(order)) == SortByInitiative(order)
    ensures forall i :: 0 <= i < |Cycle(order)| ==>
              Cycle(order)[i] == Filter(order, Ranked(Rank, Rank(Cycle(order)[i][0])))
  {
    SortOrdered(order, Rank);
    SortStable(order, Rank);
    GroupsAreTiers(SortByInitiative(order));
    var gs: Groups := Cycle(order);
    forall i | 0 <= i < |gs| ensures gs[i] == Filter(order, Ranked(Rank, Rank(gs[i][0]))) {
      TierIsTie(gs, i);
    }
  }

  function WithInitiative(initiative: Option<int>): Combatant -> bool {
    (c: Combatant) => c.initiative == initiative
  }

  /** Of two groups the earlier has the higher initiative; those who have not rolled come last. */
  lemma CycleFalls(order: seq<Combatant>, i: nat, j: nat)
    requires i < j < |Cycle(order)|
    ensures var first, second := Cycle(order)[i][0].initiative, Cycle(order)[j][0].initiative;
      first.Some? && (second.Some? ==> second.value < first.value)
  {
    CycleShape(order);
    BeforeFalls(Cycle(order)[i][0], Cycle(order)[j][0]);
  }

  lemma BeforeFalls(a: Combatant, b: Combatant)
    requires Before(Rank(a), Rank(b))
    ensures a.initiative.Some? && (b.initiative.Some? ==> b.initiative.value < a.initiative.value)
  {
  }

  /** A group is everyone of one initiative, in the order they were entered. */
  lemma CycleTies(order: seq<Combatant>, i: nat)
    requires i < |Cycle(order)|
    ensures Cycle(order)[i] == Filter(order, WithInitiative(Cycle(order)[i][0].initiative))
  {
    CycleShape(order);
    TieFilter(order, Cycle(order)[i][0]);
  }

  lemma TieFilter(order: seq<Combatant>, c: Combatant)
    ensures Filter(order, Ranked(Rank, Rank(c))) == Filter(order, WithInitiative(c.initiative))
  {
    var p, q := Ranked(Rank, Rank(c)), WithInitiative(c.initiative);
    forall x: Combatant ensures p(x) == q(x) {
      RankIsInitiative(x, c);
    }
    FilterSame(order, p, q);
  }

  lemma {:induction false} FilterSame(s: seq<Combatant>, p: Combatant -> bool, q: Combatant -> bool)
    requires forall c :: p(c) == q(c)
    ensures Filter(s, p) == Filter(s, q)
  {
    if s != [] {
      FilterSame(s[1..], p, q);
    }
  }

  /** Every combatant has its group. */
  lemma HasGroup(order: seq<Combatant>, c: Combatant) returns (i: nat)
    requires c in order
    ensures i < |Cycle(order)| && Cycle(order)[i] != [] && c in Cycle(order)[i]
    ensures Rank(Cycle(order)[i][0]) == Rank(c)
  {
    CycleShape(order);
    assert c in multiset(SortByInitiative(order));
    i := InFlat(Cycle(order), c);
  }

  lemma {:induction false} InFlat(gs: Groups, c: Combatant) returns (i: nat)
    requires c in Flatten(gs)
    ensures i < |gs| && c in gs[i]
  {
    var k := |gs| - 1;
    if c in gs[k] {
      i := k;
    } else {
      i := InFlat(gs[..k], c);
    }
  }

  // ---------------------------------------------------------------- advancing

  /** First group from `from` on that has a member of that id, or -1. */
  function GroupIndex(groups: Groups, id: Id, from: nat): (r: int)
    requires from <= |groups|
    ensures -1 <= r < |groups|
    decreases |groups| - from
  {
    if from == |groups| then -1
    else if exists j :: 0 <= j < |groups[from]| && groups[from][j].id == id then from
    else GroupIndex(groups, id, from + 1)
  }

  function AdvanceTurn(order: seq<Combatant>, state: CycleState): CycleState {
    var groups := Cycle(order);
    if groups == [] then state
    else if state.pointer.None? then CycleState(Some(groups[0][0].id), state.round)
    else
      var current := GroupIndex(groups, state.pointer.value, 0);
      if current == -1 then CycleState(Some(groups[0][0].id), state.round)
      else if current + 1 >= |groups| then CycleState(Some(groups[0][0].id), state.round + 1)
      else CycleState(Some(groups[current + 1][0].id), state.round)
  }

  ghost predicate DistinctIds(s: seq<Combatant>) {
    forall a, b :: a in s && b in s && a.id == b.id ==> a == b
  }

  /** `id` is the first member of the i-th group. */
  ghost predicate LeadAt(order: seq<Combatant>, id: Id, i: int) {
    0 <= i < |Cycle(order)| && Cycle(order)[i][0].id == id
  }

  ghost predicate IsLead(order: seq<Combatant>, id: Id) {
    exists i :: LeadAt(order, id, i)
  }

  lemma GroupMembers(order: seq<Combatant>, i: nat, c: Combatant)
    requires i < |Cycle(order)| && c in Cycle(order)[i]
    ensures c in order && Rank(c) == Rank(Cycle(order)[i][0])
  {
    CycleShape(order);
  }

  /** Distinct ids do not occur in two groups. */
  lemma OneGroupPerId(order: seq<Combatant>, i: nat, j: nat, a: Combatant, b: Combatant)
    requires DistinctIds(order)
    requires i < j < |Cycle(order)| && a in Cycle(order)[i] && b in Cycle(order)[j]
    ensures a.id != b.id
  {
    CycleShape(order);
    GroupMembers(order, i, a);
    GroupMembers(order, j, b);
    assert Before(Rank(Cycle(order)[i][0]), Rank(Cycle(order)[j][0]));
  }

  /** With distinct ids a row is found in its own group. */
  lemma {:induction false} MemberFound(order: seq<Combatant>, i: nat, c: Combatant, from: nat)
    requires DistinctIds(order)
    requires from <= i < |Cycle(order)| && c in Cycle(order)[i]
    ensures GroupIndex(Cycle(order), c.id, from) == i
    decreases i - from
  {
    var gs: Groups := Cycle(order);
    if from < i {
      forall j | 0 <= j < |gs[from]| ensures gs[from][j].id != c.id {
        OneGroupPerId(order, from, i, gs[from][j], c);
      }
      MemberFound(order, i, c, from + 1);
    }
  }

  lemma LeadFound(order: seq<Combatant>, i: nat, from: nat)
    requires DistinctIds(order)
    requires from <= i < |Cycle(order)|
    ensures GroupIndex(Cycle(order), Cycle(order)[i][0].id, from) == i
  {
    MemberFound(order, i, Cycle(order)[i][0], from);
  }

  /** From any member of a group the pointer moves to the next group's lead; from the last group to the first lead, in a new round. */
  lemma AdvanceFromMember(order: seq<Combatant>, i: nat, c: Combatant, round: int)
    requires DistinctIds(order) && i < |Cycle(order)| && c in Cycle(order)[i]
    ensures AdvanceTurn(order, CycleState(Some(c.id), round))
         == if i + 1 < |Cycle(order)| then CycleState(Some(Cycle(order)[i + 1][0].id), round)
            else CycleState(Some(Cycle(order)[0][0].id), round + 1)
  {
    MemberFound(order, i, c, 0);
  }

  lemma {:induction false} NobodyFound(order: seq<Combatant>, id: Id, from: nat)
    requires from <= |Cycle(order)| && forall c :: c in order ==> c.id != id
    ensures GroupIndex(Cycle(order), id, from) == -1
    decreases |Cycle(order)| - from
  {
    var gs: Groups := Cycle(order);
    if from < |gs| {
      forall j | 0 <= j < |gs[from]| ensures gs[from][j].id != id {
        GroupMembers(order, from, gs[from][j]);
      }
      NobodyFound(order, id, from + 1);
    }
  }

  /** A pointer that is unset, or on nobody in the order, moves to the first lead in the same round. */
  lemma AdvanceFromNobody(order: seq<Combatant>, state: CycleState)
    requires order != [] && (state.pointer.Some? ==> forall c :: c in order ==> c.id != state.pointer.value)
    ensures Cycle(order) != []
    ensures AdvanceTurn(order, state) == CycleState(Some(Cycle(order)[0][0].id), state.round)
  {
    var g := HasGroup(order, order[0]);
    if state.pointer.Some? {
      NobodyFound(order, state.pointer.value, 0);
    }
  }

  /** From a lead the pointer moves to the next lead; from the last one to the first, in a new round. */
  lemma AdvanceFromLead(order: seq<Combatant>, i: nat, round: int)
    requires DistinctIds(order) && i < |Cycle(order)|
    ensures AdvanceTurn(order, CycleState(Some(Cycle(order)[i][0].id), round))
         == if i + 1 < |Cycle(order)| then CycleState(Some(Cycle(order)[i + 1][0].id), round)
            else CycleState(Some(Cycle(order)[0][0].id), round + 1)
  {
    LeadFound(order, i, 0);
  }

  /** The state after `calls` calls. */
  function Turns(order: seq<Combatant>, state: CycleState, calls: nat): CycleState {
    if calls == 0 then state else AdvanceTurn(order, Turns(order, state, calls - 1))
  }

  lemma NextInCycle(a: nat, k: nat)
    requires k >= 1
    ensures (a + 1) % k == (if a % k + 1 < k then a % k + 1 else 0)
    ensures (a + 1) / k == (if a % k + 1 < k then a / k else a / k + 1)
  {
    var q, r := a / k, a % k;
    assert a == k * q + r;
    if r + 1 < k {
      DivModUnique(a + 1, k, q, r + 1);
    } else {
      assert a + 1 == k * (q + 1);
      DivModUnique(a + 1, k, q + 1, 0);
    }
  }

  /** Where the pointer is after `a` steps along the cycle from its start. */
  function Along(order: seq<Combatant>, round: int, a: nat): CycleState
    requires Cycle(order) != []
  {
    var gs: Groups := Cycle(order);
    CycleState(Some(gs[a % |gs|][0].id), round + a / |gs|)
  }

  lemma OneFurther(order: seq<Combatant>, round: int, a: nat)
    requires DistinctIds(order) && Cycle(order) != []
    ensures AdvanceTurn(order, Along(order, round, a)) == Along(order, round, a + 1)
  {
    var k := |Cycle(order)|;
    var i := a % k;
    DivMod(a, k);
    AdvanceFromLead(order, i, round + a / k);
    NextInCycle(a, k);
  }

  lemma {:induction false} TurnsAlong(order: seq<Combatant>, round: int, j: nat)
    requires DistinctIds(order) && Cycle(order) != [] && j >= 1
    ensures Turns(order, CycleState(None, round), j) == Along(order, round, j - 1)
  {
    if j > 1 {
      TurnsAlong(order, round, j - 1);
      OneFurther(order, round, j - 2);
    } else {
      DivModUnique(0, |Cycle(order)|, 0, 0);
      assert Turns(order, CycleState(None, round), 0) == CycleState(None, round);
    }
  }

  /** Starting fresh, the j-th call lands on group (j-1) mod k in round (j-1) div k. */
  lemma FairTurns(order: seq<Combatant>, round: int, j: nat)
    requires DistinctIds(order) && order != [] && j >= 1
    ensures var gs: Groups := Cycle(order);
      && |gs| >= 1
      && Turns(order, CycleState(None, round), j)
         == CycleState(Some(gs[(j - 1) % |gs|][0].id), round + (j - 1) / |gs|)
  {
    var first := HasGroup(order, order[0]);
    TurnsAlong(order, round, j);
  }

  // ---------------------------------------------------------------- removing

  /** The g-th group has a single member. */
  ghost predicate Alone(order: seq<Combatant>, g: int) {
    0 <= g < |Cycle(order)| && |Cycle(order)[g]| == 1
  }

  function Without(id: Id): Combatant -> bool {
    (c: Combatant) => c.id != id
  }

  function RemoveCombatant(order: seq<Combatant>, state: CycleState, id: Id): (seq<Combatant>, CycleState) {
    var rest := Filter(order, Without(id));
    if rest == [] then (rest, CycleState(None, state.round))
    else if state.pointer != Some(id) then (rest, state)
    else
      var advanced := AdvanceTurn(order, state);
      if advanced.pointer.Some? && exists j :: 0 <= j < |rest| && rest[j].id == advanced.pointer.value
      then (rest, advanced)
      else (rest, AdvanceTurn(rest, CycleState(None, advanced.round)))
  }

  /** Removing a row and sorting is sorting and removing it. */
  lemma SortRemove(order: seq<Combatant>, id: Id)
    ensures SortByInitiative(Filter(order, Without(id))) == Filter(SortByInitiative(order), Without(id))
  {
    var rest, sorted := Filter(order, Without(id)), SortByInitiative(order);
    var cut := Filter(sorted, Without(id));
    SortOrdered(order, Rank);
    SortStable(order, Rank);
    SortOrdered(rest, Rank);
    SortStable(rest, Rank);
    FilterOrdered(sorted, Without(id));
    forall v: (int, int) ensures Filter(SortByInitiative(rest), Ranked(Rank, v)) == Filter(cut, Ranked(Rank, v)) {
      FilterTwice(sorted, Without(id), Ranked(Rank, v));
      FilterTwice(order, Without(id), Ranked(Rank, v));
    }
    StableOrderUnique(SortByInitiative(rest), cut, Rank);
  }

  lemma {:induction false} FilterOrdered(s: seq<Combatant>, keep: Combatant -> bool)
    requires Ordered(s, Rank)
    ensures Ordered(Filter(s, keep), Rank)
  {
    if s != [] {
      FilterOrdered(s[1..], keep);
      var tail := Filter(s[1..], keep);
      forall j | 0 <= j < |tail| ensures !Before(Rank(tail[j]), Rank(s[0])) {
        assert tail[j] in s[1..];
      }
    }
  }

  lemma FlattenAround(gs: Groups, g: nat)
    requires g < |gs|
    ensures Flatten(gs) == Flatten(gs[..g]) + gs[g] + Flatten(gs[g + 1..])
  {
    Around(gs, g);
    FlattenConcat(gs[..g + 1], gs[g + 1..]);
    FlattenSnoc(gs[..g], gs[g]);
  }

  /** Removing a combatant that is its whole group removes that group from the cycle. */
  lemma CycleRemove(order: seq<Combatant>, g: nat)
    requires DistinctIds(order) && Alone(order, g)
    ensures Cycle(Filter(order, Without(Cycle(order)[g][0].id))) == Cycle(order)[..g] + Cycle(order)[g + 1..]
  {
    var gs: Groups := Cycle(order);
    var x := gs[g][0];
    CycleShape(order);
    FilterFlat(order, g);
    SortRemove(order, x.id);
    CutTiers(gs, g);
    TiersAreGroups(gs[..g] + gs[g + 1..]);
  }

  lemma FilterFlat(order: seq<Combatant>, g: nat)
    requires DistinctIds(order) && Alone(order, g)
    ensures Filter(Flatten(Cycle(order)), Without(Cycle(order)[g][0].id)) == Flatten(Cycle(order)[..g] + Cycle(order)[g + 1..])
  {
    var gs: Groups := Cycle(order);
    var x := gs[g][0];
    var keep := Without(x.id);
    var a, b := Flatten(gs[..g]), Flatten(gs[g + 1..]);
    FlattenAround(gs, g);
    assert gs[g] == [x];
    OthersStay(order, g, gs[..g]);
    OthersStay(order, g, gs[g + 1..]);
    assert Filter(a + [x], keep) == a by {
      FilterConcat(a, [x], keep);
    }
    FilterConcat(a + [x], b, keep);
    FlattenConcat(gs[..g], gs[g + 1..]);
  }

  /** The other groups hold no row of the removed id. */
  lemma OthersStay(order: seq<Combatant>, g: nat, part: Groups)
    requires DistinctIds(order) && g < |Cycle(order)| && Cycle(order)[g] != []
    requires part == Cycle(order)[..g] || part == Cycle(order)[g + 1..]
    ensures Filter(Flatten(part), Without(Cycle(order)[g][0].id)) == Flatten(part)
  {
    var gs: Groups := Cycle(order);
    var x := gs[g][0];
    CycleShape(order);
    GroupMembers(order, g, x);
    forall c | c in Flatten(part) ensures c.id != x.id {
      var i := InFlat(part, c);
      var j := if part == gs[..g] then i else g + 1 + i;
      assert part[i] == gs[j] && j != g by {
        if part == gs[..g] {
          assert i < g;
        }
      }
      GroupMembers(order, j, c);
      assert Rank(gs[j][0]) != Rank(x);
    }
    FilterAll(Flatten(part), Without(x.id));
  }

  function Turner(order: seq<Combatant>): CycleState -> CycleState {
    (s: CycleState) => AdvanceTurn(order, s)
  }

  /** The states the next `m` calls go through. */
  function Visits(step: CycleState -> CycleState, s: CycleState, m: nat): seq<CycleState>
    decreases m
  {
    if m == 0 then [] else [step(s)] + Visits(step, step(s), m - 1)
  }

  /** A step of `short` from a state in `good` is a step of `full`, or two where the first lands on a state not to be kept. */
  ghost predicate SkipsAt(full: CycleState -> CycleState, short: CycleState -> CycleState,
                          keep: CycleState -> bool, good: CycleState -> bool, s: CycleState)
  {
    good(s) ==>
      && short(s) == (if keep(full(s)) then full(s) else full(full(s)))
      && good(short(s)) && keep(short(s))
  }

  ghost predicate Skips(full: CycleState -> CycleState, short: CycleState -> CycleState,
                        keep: CycleState -> bool, good: CycleState -> bool)
  {
    forall s :: SkipsAt(full, short, keep, good, s)
  }

  /** So do the next `m` steps of `short`. */
  ghost predicate SkipsFor(full: CycleState -> CycleState, short: CycleState -> CycleState,
                           keep: CycleState -> bool, good: CycleState -> bool, s: CycleState, m: nat)
    decreases m
  {
    good(s) && (m > 0 ==> SkipsAt(full, short, keep, good, s) && SkipsFor(full, short, keep, good, short(s), m - 1))
  }

  lemma {:induction false} SkipsEachTime(full: CycleState -> CycleState, short: CycleState -> CycleState,
                                         keep: CycleState -> bool, good: CycleState -> bool, s: CycleState, m: nat)
    requires Skips(full, short, keep, good) && good(s)
    ensures SkipsFor(full, short, keep, good, s, m)
    decreases m
  {
    if m > 0 {
      assert SkipsAt(full, short, keep, good, s);
      SkipsEachTime(full, short, keep, good, short(s), m - 1);
    }
  }

  /** The first `m` states `full` visits from `s`, without those not to be kept. */
  function Kept(full: CycleState -> CycleState, keep: CycleState -> bool, s: CycleState, m: nat): seq<CycleState>
    decreases m
  {
    if m == 0 then [] else (if keep(full(s)) then [full(s)] else []) + Kept(full, keep, full(s), m - 1)
  }

  lemma {:induction false} KeptIsFiltered(full: CycleState -> CycleState, keep: CycleState -> bool, s: CycleState, m: nat)
    ensures Kept(full, keep, s, m) == Filter(Visits(full, s, m), keep)
    decreases m
  {
    if m > 0 {
      KeptIsFiltered(full, keep, full(s), m - 1);
      FilterHead(full(s), Visits(full, full(s), m - 1), keep);
    }
  }

  /** Then `short` visits what `full` visits, in order, without the states not to be kept. */
  lemma {:induction false} SkippingVisits(full: CycleState -> CycleState, short: CycleState -> CycleState,
                                          keep: CycleState -> bool, good: CycleState -> bool,
                                          s: CycleState, m: nat, steps: nat)
    requires m <= steps && SkipsFor(full, short, keep, good, s, steps)
    ensures var kept := Kept(full, keep, s, m);
      && kept == Visits(short, s, |kept|)
      && 2 * |kept| + 1 >= m
    decreases m
  {
    if m > 0 {
      var u := short(s);
      if keep(full(s)) {
        SkippingVisits(full, short, keep, good, u, m - 1, steps - 1);
        VisitFirst(short, s, Kept(full, keep, u, m - 1));
      } else {
        if m > 1 {
          SkippingVisits(full, short, keep, good, u, m - 2, steps - 1);
          VisitFirst(short, s, Kept(full, keep, u, m - 2));
        }
      }
    }
  }

  lemma VisitFirst(step: CycleState -> CycleState, s: CycleState, later: seq<CycleState>)
    requires later == Visits(step, step(s), |later|)
    ensures [step(s)] + later == Visits(step, s, 1 + |later|)
  {
  }

  /** `step` moves the pointer along `leads`, one round per pass. */
  ghost predicate CyclesAt(step: CycleState -> CycleState, leads: seq<Id>, i: int, round: int) {
    0 <= i < |leads| ==>
      step(CycleState(Some(leads[i]), round))
        == if i + 1 < |leads| then CycleState(Some(leads[i + 1]), round) else CycleState(Some(leads[0]), round + 1)
  }

  /** The pointer is on a lead other than the g-th. */
  ghost function ElsewhereThan(leads: seq<Id>, g: nat): CycleState -> bool {
    (s: CycleState) => s.pointer.Some? && exists i :: 0 <= i < |leads| && i != g && s.pointer.value == leads[i]
  }

  function NotTurnOf(id: Id): CycleState -> bool {
    (s: CycleState) => s.pointer != Some(id)
  }

  /** Cycling through the leads without the g-th is cycling through all of them and skipping it. */
  lemma DropLead(full: CycleState -> CycleState, short: CycleState -> CycleState, leads: seq<Id>, g: nat, rest: seq<Id>, s: CycleState)
    requires g < |leads| && rest == leads[..g] + leads[g + 1..]
    requires forall j :: 0 <= j < |leads| && j != g ==> leads[j] != leads[g]
    requires forall i, round :: CyclesAt(full, leads, i, round)
    requires forall i, round :: CyclesAt(short, rest, i, round)
    ensures SkipsAt(full, short, NotTurnOf(leads[g]), ElsewhereThan(leads, g), s)
  {
    if ElsewhereThan(leads, g)(s) {
      var i :| 0 <= i < |leads| && i != g && s.pointer.value == leads[i];
      var k := |leads|;
      var next := if i + 1 < k then i + 1 else 0;
      assert CyclesAt(full, leads, i, s.round);
      assert CyclesAt(full, leads, g, full(s).round);
      assert CyclesAt(short, rest, if i < g then i else i - 1, s.round);
      var j := if next != g then next else if g + 1 < k then g + 1 else 0;
      assert short(s).pointer == Some(leads[j]);
    }
  }

  function Leads(order: seq<Combatant>): (r: seq<Id>)
    ensures |r| == |Cycle(order)|
    ensures forall i :: 0 <= i < |r| ==> r[i] == Cycle(order)[i][0].id
  {
    var gs: Groups := Cycle(order);
    seq(|gs|, (i: nat) requires i < |gs| => gs[i][0].id)
  }

  lemma OrderCycles(order: seq<Combatant>)
    requires DistinctIds(order)
    ensures forall i, round :: CyclesAt(Turner(order), Leads(order), i, round)
  {
    var leads, step := Leads(order), Turner(order);
    forall i, round ensures CyclesAt(step, leads, i, round) {
      if 0 <= i < |Leads(order)| {
        AdvanceFromLead(order, i, round);
      }
    }
  }

  lemma LeadsDiffer(order: seq<Combatant>, g: nat)
    requires DistinctIds(order) && g < |Leads(order)|
    ensures forall j :: 0 <= j < |Leads(order)| && j != g ==> Leads(order)[j] != Leads(order)[g]
  {
    forall j | 0 <= j < |Leads(order)| && j != g ensures Leads(order)[j] != Leads(order)[g] {
      LeadFound(order, j, 0);
      LeadFound(order, g, 0);
    }
  }

  lemma LeadsCut(order: seq<Combatant>, rest: seq<Combatant>, g: nat)
    requires g < |Cycle(order)| && Cycle(rest) == Cycle(order)[..g] + Cycle(order)[g + 1..]
    ensures Leads(rest) == Leads(order)[..g] + Leads(order)[g + 1..]
  {
    var leads, cut := Leads(rest), Leads(order)[..g] + Leads(order)[g + 1..];
    assert |leads| == |cut|;
    forall i | 0 <= i < |leads| ensures leads[i] == cut[i] {
      assert Cycle(rest)[i] == if i < g then Cycle(order)[i] else Cycle(order)[i + 1];
    }
  }

  lemma LeadsRemove(order: seq<Combatant>, g: nat)
    requires DistinctIds(order) && Alone(order, g)
    ensures Leads(Filter(order, Without(Leads(order)[g]))) == Leads(order)[..g] + Leads(order)[g + 1..]
  {
    CycleRemove(order, g);
    LeadsCut(order, Filter(order, Without(Leads(order)[g])), g);
  }

  /** Where the turn goes when the g-th group's only member is removed while active. */
  lemma RemovedActive(order: seq<Combatant>, g: nat, round: int)
    requires DistinctIds(order) && g < |Leads(order)| && |Leads(order)| >= 2
    ensures var x := Leads(order)[g];
            var before := CycleState(Some(x), round);
            var after := Turner(order)(before);
      && RemoveCombatant(order, before, x) == (Filter(order, Without(x)), after)
      && ElsewhereThan(Leads(order), g)(after) && after.pointer != Some(x)
  {
    var leads := Leads(order);
    AdvanceFromLead(order, g, round);
    LeadsDiffer(order, g);
    var j := if g + 1 < |leads| then g + 1 else 0;
    GroupMembers(order, j, Cycle(order)[j][0]);
    assert Cycle(order)[j][0] in Filter(order, Without(leads[g]));
  }

  /**
   * Removing the active combatant, when it is its whole group and not the only one, skips its
   * turns: the states from the removal on are the full cycle's next states with that group's
   * turns deleted, rounds included. (At least every second state of the full cycle is kept.)
   */
  lemma RemovalSkips(order: seq<Combatant>, g: nat, round: int, m: nat)
    requires DistinctIds(order) && Alone(order, g)
    requires |Cycle(order)| >= 2 && m >= 1
    ensures var x := Leads(order)[g];
            var before := CycleState(Some(x), round);
            var (rest, after) := RemoveCombatant(order, before, x);
            var kept := Filter(Visits(Turner(order), before, m), NotTurnOf(x));
      && 2 * |kept| >= m
      && kept == [after] + Visits(Turner(rest), after, |kept| - 1)
  {
    RemovedActive(order, g, round);
    KeptVisits(order, g, CycleState(Some(Leads(order)[g]), round), m);
    KeptIsFiltered(Turner(order), NotTurnOf(Leads(order)[g]), CycleState(Some(Leads(order)[g]), round), m);
  }

  /**
   * Removing a combatant that is its whole group while another is active leaves the pointer and the
   * round, and skips that group's turns from then on.
   */
  lemma RemovalElsewhere(order: seq<Combatant>, g: nat, s: CycleState, m: nat)
    requires DistinctIds(order) && Alone(order, g) && ElsewhereThan(Leads(order), g)(s)
    ensures var x := Leads(order)[g];
            var (rest, after) := RemoveCombatant(order, s, x);
            var kept := Filter(Visits(Turner(order), s, m), NotTurnOf(x));
      && rest == Filter(order, Without(x)) && after == s
      && 2 * |kept| + 1 >= m
      && kept == Visits(Turner(rest), s, |kept|)
  {
    var x := Leads(order)[g];
    var rest := Filter(order, Without(x));
    RemovedElsewhere(order, g, s);
    RemovedSkips(order, g);
    SkipsEachTime(Turner(order), Turner(rest), NotTurnOf(x), ElsewhereThan(Leads(order), g), s, m);
    SkippingVisits(Turner(order), Turner(rest), NotTurnOf(x), ElsewhereThan(Leads(order), g), s, m, m);
    KeptIsFiltered(Turner(order), NotTurnOf(x), s, m);
  }

  /** Removing the active lead of the only tie starts the rest of it over in a new round. */
  lemma RemovalInOnlyTie(order: seq<Combatant>, round: int)
    requires DistinctIds(order) && |Cycle(order)| == 1 && Filter(order, Without(Leads(order)[0])) != []
    ensures var rest := Filter(order, Without(Leads(order)[0]));
      && Cycle(rest) != []
      && RemoveCombatant(order, CycleState(Some(Leads(order)[0]), round), Leads(order)[0])
         == (rest, CycleState(Some(Leads(rest)[0]), round + 1))
  {
    var x := Leads(order)[0];
    var rest := Filter(order, Without(x));
    AdvanceFromLead(order, 0, round);
    AdvanceFromNobody(rest, CycleState(None, round + 1));
    assert forall j :: 0 <= j < |rest| ==> Without(x)(rest[j]);
  }

  /** Removing the last row unsets the pointer. */
  lemma RemovalOfLast(order: seq<Combatant>, state: CycleState, id: Id)
    requires forall c :: c in order ==> c.id == id
    ensures RemoveCombatant(order, state, id) == ([], CycleState(None, state.round))
  {
    FilterNone(order, Without(id));
  }

  lemma RemovedElsewhere(order: seq<Combatant>, g: nat, s: CycleState)
    requires DistinctIds(order) && g < |Leads(order)| && ElsewhereThan(Leads(order), g)(s)
    ensures var x := Leads(order)[g];
      RemoveCombatant(order, s, x) == (Filter(order, Without(x)), s)
  {
    var leads := Leads(order);
    LeadsDiffer(order, g);
    var j :| 0 <= j < |leads| && j != g && s.pointer.value == leads[j];
    GroupMembers(order, j, Cycle(order)[j][0]);
    assert Cycle(order)[j][0] in Filter(order, Without(leads[g]));
  }

  lemma KeptVisits(order: seq<Combatant>, g: nat, before: CycleState, m: nat)
    requires DistinctIds(order) && Alone(order, g) && m >= 1
    requires var after := Turner(order)(before);
      ElsewhereThan(Leads(order), g)(after) && after.pointer != Some(Leads(order)[g])
    ensures var x := Leads(order)[g];
            var after := Turner(order)(before);
            var kept := Kept(Turner(order), NotTurnOf(x), before, m);
      && |kept| >= 1 && 2 * |kept| >= m
      && kept == [after] + Visits(Turner(Filter(order, Without(x))), after, |kept| - 1)
  {
    RemovedSkips(order, g);
    var x := Leads(order)[g];
    SkippedFrom(Turner(order), Turner(Filter(order, Without(x))), NotTurnOf(x), ElsewhereThan(Leads(order), g), before, m);
  }

  lemma RemovedSkips(order: seq<Combatant>, g: nat)
    requires DistinctIds(order) && Alone(order, g)
    ensures var x := Leads(order)[g];
            Skips(Turner(order), Turner(Filter(order, Without(x))), NotTurnOf(x), ElsewhereThan(Leads(order), g))
  {
    var leads := Leads(order);
    var rest := Filter(order, Without(leads[g]));
    var full, short := Turner(order), Turner(rest);
    OrderCycles(order);
    LeadsDiffer(order, g);
    LeadsRemove(order, g);
    OrderCycles(rest);
    forall u: CycleState ensures SkipsAt(full, short, NotTurnOf(leads[g]), ElsewhereThan(leads, g), u) {
      DropLead(full, short, leads, g, Leads(rest), u);
    }
  }

  lemma SkippedFrom(full: CycleState -> CycleState, short: CycleState -> CycleState, keep: CycleState -> bool,
                    good: CycleState -> bool, before: CycleState, m: nat)
    requires Skips(full, short, keep, good)
    requires m >= 1 && good(full(before)) && keep(full(before))
    ensures var kept := Kept(full, keep, before, m);
      && |kept| >= 1 && 2 * |kept| >= m
      && kept == [full(before)] + Visits(short, full(before), |kept| - 1)
  {
    var first := full(before);
    SkipsEachTime(full, short, keep, good, first, m - 1);
    SkippingVisits(full, short, keep, good, first, m - 1, m - 1);
    KeptFrom(full, short, keep, before, m, Kept(full, keep, first, m - 1));
  }

  lemma KeptFrom(full: CycleState -> CycleState, short: CycleState -> CycleState, keep: CycleState -> bool,
                 before: CycleState, m: nat, later: seq<CycleState>)
    requires m >= 1 && keep(full(before))
    requires later == Kept(full, keep, full(before), m - 1)
    requires later == Visits(short, full(before), |later|) && 2 * |later| + 2 >= m
    ensures var kept := Kept(full, keep, before, m);
      && |kept| >= 1 && 2 * |kept| >= m
      && kept == [full(before)] + Visits(short, full(before), |kept| - 1)
  {
    assert |[full(before)] + later| - 1 == |later|;
  }

  /** A lead is the first-entered combatant of its initiative. */
  lemma LeadIsFirst(order: seq<Combatant>, id: Id)
    ensures IsLead(order, id)
       <==> exists c :: c in order && c.id == id && FirstOfItsTie(order, c)
  {
    CycleShape(order);
    var gs: Groups := Cycle(order);
    if IsLead(order, id) {
      var i :| LeadAt(order, id, i);
      GroupMembers(order, i, gs[i][0]);
      assert FirstOfItsTie(order, gs[i][0]);
    }
    if exists c :: c in order && c.id == id && FirstOfItsTie(order, c) {
      var c :| c in order && c.id == id && FirstOfItsTie(order, c);
      var i := HasGroup(order, c);
      assert LeadAt(order, id, i);
    }
  }

  ghost predicate FirstOfItsTie(order: seq<Combatant>, c: Combatant) {
    var tie := Filter(order, Ranked(Rank, Rank(c)));
    tie != [] && tie[0] == c
  }

  /** Removing another row leaves a lead a lead. */
  lemma LeadStays(order: seq<Combatant>, lead: Id, id: Id)
    requires IsLead(order, lead) && lead != id
    ensures IsLead(Filter(order, Without(id)), lead)
  {
    LeadIsFirst(order, lead);
    var c :| c in order && c.id == lead && FirstOfItsTie(order, c);
    var rest := Filter(order, Without(id));
    FilterTwice(order, Without(id), Ranked(Rank, Rank(c)));
    assert c in rest && FirstOfItsTie(rest, c);
    LeadIsFirst(rest, lead);
  }

  ghost predicate NullOrLead(order: seq<Combatant>, state: CycleState) {
    state.pointer.Some? ==> IsLead(order, state.pointer.value)
  }

  lemma AdvanceToLead(order: seq<Combatant>, state: CycleState)
    ensures Cycle(order) != [] ==>
              AdvanceTurn(order, state).pointer.Some? && IsLead(order, AdvanceTurn(order, state).pointer.value)
  {
    var gs: Groups := Cycle(order);
    if gs != [] {
      var to: CycleState := AdvanceTurn(order, state);
      var i :| 0 <= i < |gs| && to.pointer == Some(gs[i][0].id);
      assert LeadAt(order, to.pointer.value, i);
    }
  }

  /** Whatever is removed, a pointer that is unset or on a lead stays so, also through later turns. */
  lemma PointerStaysOnLead(order: seq<Combatant>, state: CycleState, id: Id)
    requires NullOrLead(order, state)
    ensures NullOrLead(order, AdvanceTurn(order, state))
    ensures NullOrLead(RemoveCombatant(order, state, id).0, RemoveCombatant(order, state, id).1)
  {
    AdvanceToLead(order, state);
    var rest := Filter(order, Without(id));
    if rest != [] {
      var first := HasGroup(order, rest[0]);
      var g := HasGroup(rest, rest[0]);
      var advanced: CycleState := AdvanceTurn(order, state);
      AdvanceToLead(rest, CycleState(None, advanced.round));
      if state.pointer.Some? && state.pointer.value != id {
        LeadStays(order, state.pointer.value, id);
      } else if advanced.pointer != Some(id) {
        LeadStays(order, advanced.pointer.value, id);
      } else {
        assert forall j :: 0 <= j < |rest| ==> Without(id)(rest[j]);
      }
    }
  }
}
