/**
 * The batch loop of POST /sync/actions (apps/server/src/sync/routes.ts), over any guards, reducer,
 * persistor and log builder: each action is checked, reduced, persisted and logged in turn inside
 * one transaction, and the first that fails undoes them all.
 */
module Batch {
  import opened Sequences
  import opened Wrappers

  datatype Role = Dm | Player | Banker

  datatype Actor = Actor(user: int, party: int, role: Role)

  /** What the reducer returns: the next state and the slices to be logged. */
  datatype Reduced<S, L> = Reduced(state: Option<S>, slices: seq<L>)

  /** A broadcast: an action and the log entries it led to. */
  datatype Planned<A, E> = Planned(action: A, entries: seq<E>)

  /** Where a batch stands between two actions. */
  datatype World<T, S> = World(tables: T, state: Option<S>, actor: Actor)

  datatype Failure = Refused(code: string) | Crashed(error: string)

  datatype Attempt<W> = Went(world: W) | Broke(failure: Failure)

  datatype Response<E> = Applied(applied: seq<E>) | Rejected(index: nat, code: string) | Error(error: string)

  const KEY_TAKEN := "P2002"
  const ID_EXISTS := "id_already_exists"

  function Flatten<A, E>(plan: seq<Planned<A, E>>): seq<E> {
    if plan == [] then [] else Flatten(plan[..|plan| - 1]) + plan[|plan| - 1].entries
  }

  /** The broadcasts carry just these entries in order, and none is empty. */
  ghost predicate Carries<A, E>(plan: seq<Planned<A, E>>, entries: seq<E>) {
    Flatten(plan) == entries && forall n :: 0 <= n < |plan| ==> plan[n].entries != []
  }

  method Record<A, E>(plan: seq<Planned<A, E>>, ghost out: seq<E>, a: A, entries: seq<E>) returns (next: seq<Planned<A, E>>)
    requires Carries(plan, out)
    ensures Carries(next, out + entries)
    ensures next == plan + if entries == [] then [] else [Planned(a, entries)]
  {
    next := plan;
    if |entries| > 0 {
      next := plan + [Planned(a, entries)];
      assert next[..|next| - 1] == plan;
    }
  }

  class Route<T, S, A, L, E> {
    // what the loop is given
    const guard: (Option<S>, A, Actor) -> Option<string>
    const reduce: (Option<S>, A) -> Result<Reduced<S, L>>
    const persist: (T, A, Actor) -> Result<T>
    const persistBootstrap: (T, S, int) -> Result<T>
    const buildEntry: (L, Actor, Option<S>) -> E
    const createsCharacter: A -> bool
    const partyId: S -> int
    // what it changes
    var tables: T
    var log: seq<E>

    constructor (guard: (Option<S>, A, Actor) -> Option<string>, reduce: (Option<S>, A) -> Result<Reduced<S, L>>,
                 persist: (T, A, Actor) -> Result<T>, persistBootstrap: (T, S, int) -> Result<T>,
                 buildEntry: (L, Actor, Option<S>) -> E, createsCharacter: A -> bool, partyId: S -> int, tables: T)
      ensures this.tables == tables && log == []
    {
      this.guard, this.reduce, this.persist, this.persistBootstrap := guard, reduce, persist, persistBootstrap;
      this.buildEntry, this.createsCharacter, this.partyId := buildEntry, createsCharacter, partyId;
      this.tables, log := tables, [];
    }

    // -------------------------------------------------------------- what a batch means

    /** The reduced action founds the party: only in a bootstrap batch. */
    predicate Founds(bootstrap: bool, a: A, reduced: Reduced<S, L>) {
      bootstrap && createsCharacter(a) && reduced.state.Some?
    }

    /** From then on the actor acts in the party the reducer named. */
    function ActorAfter(bootstrap: bool, w: World<T, S>, a: A, reduced: Reduced<S, L>): Actor {
      if Founds(bootstrap, a, reduced) then w.actor.(party := partyId(reduced.state.value)) else w.actor
    }

    function Persisted(bootstrap: bool, w: World<T, S>, a: A, reduced: Reduced<S, L>): Result<T> {
      if Founds(bootstrap, a, reduced) then persistBootstrap(w.tables, reduced.state.value, w.actor.user)
      else persist(w.tables, a, ActorAfter(bootstrap, w, a, reduced))
    }

    /** One action: refused by a guard or by a taken key, broken by any other throw, or done. */
    function Step(bootstrap: bool, w: World<T, S>, a: A): Attempt<World<T, S>> {
      var g := guard(w.state, a, w.actor);
      if g.Some? then Broke(Refused(g.value))
      else
        var r := reduce(w.state, a);
        if r.Err? then Broke(Crashed(r.error))
        else
          var t := Persisted(bootstrap, w, a, r.value);
          if t.Err? then Broke(if t.error == KEY_TAKEN then Refused(ID_EXISTS) else Crashed(t.error))
          else Went(World(t.value, r.value.state, ActorAfter(bootstrap, w, a, r.value)))
    }

    /** The world after all the actions, or the first failure. */
    function After(bootstrap: bool, w: World<T, S>, actions: seq<A>): Attempt<World<T, S>>
      decreases |actions|
    {
      if actions == [] then Went(w)
      else
        var before := After(bootstrap, w, actions[..|actions| - 1]);
        if before.Broke? then before else Step(bootstrap, before.world, actions[|actions| - 1])
    }

    /** An entry a slice, each built for the state before the action. */
    function Built(slices: seq<L>, actor: Actor, state: Option<S>): seq<E> {
      if slices == [] then []
      else Built(slices[..|slices| - 1], actor, state) + [buildEntry(slices[|slices| - 1], actor, state)]
    }

    /** The actions before the i-th go through, and it does not. */
    predicate FirstFailure(bootstrap: bool, w: World<T, S>, actions: seq<A>, i: nat) {
      && i < |actions|
      && After(bootstrap, w, actions[..i]).Went?
      && After(bootstrap, w, actions[..i + 1]).Broke?
    }

    /** The log entries of one action. */
    function EntriesOf(bootstrap: bool, w: World<T, S>, a: A): seq<E> {
      var r := reduce(w.state, a);
      if r.Err? then [] else Built(r.value.slices, ActorAfter(bootstrap, w, a, r.value), w.state)
    }

    /** The entries of all the actions in order. */
    function Entries(bootstrap: bool, w: World<T, S>, actions: seq<A>): seq<E>
      decreases |actions|
    {
      if actions == [] then []
      else
        var k := |actions| - 1;
        var before := After(bootstrap, w, actions[..k]);
        Entries(bootstrap, w, actions[..k]) + if before.Broke? then [] else EntriesOf(bootstrap, before.world, actions[k])
    }

    /** The broadcasts of all the actions in order: one for each that has entries. */
    function Broadcasts(bootstrap: bool, w: World<T, S>, actions: seq<A>): seq<Planned<A, E>>
      decreases |actions|
    {
      if actions == [] then []
      else
        var front, a := actions[..|actions| - 1], actions[|actions| - 1];
        var before := After(bootstrap, w, front);
        var entries := if before.Broke? then [] else EntriesOf(bootstrap, before.world, a);
        Broadcasts(bootstrap, w, front) + if entries == [] then [] else [Planned(a, entries)]
    }

    // -------------------------------------------------------------- the loop

    /** Reduces, persists and logs one action. */
    method ApplyOne(bootstrap: bool, a: A, state: Option<S>, actor: Actor)
      returns (attempt: Attempt<World<T, S>>, entries: seq<E>)
      modifies this`tables, this`log
      ensures attempt == Step(bootstrap, World(old(tables), state, actor), a)
      ensures attempt.Went? ==> (
        && tables == attempt.world.tables
        && entries == EntriesOf(bootstrap, World(old(tables), state, actor), a)
        && log == old(log) + entries)
    {
      entries := [];
      var g := guard(state, a, actor);
      if g.Some? {
        return Broke(Refused(g.value)), [];
      }
      var reduced := reduce(state, a);
      if reduced.Err? {
        return Broke(Crashed(reduced.error)), [];
      }
      var founds := Founds(bootstrap, a, reduced.value);
      var acting := actor;
      if founds {
        acting := actor.(party := partyId(reduced.value.state.value));
      }
      var written;
      if founds {
        written := persistBootstrap(tables, reduced.value.state.value, actor.user);
      } else {
        written := persist(tables, a, acting);
      }
      if written.Err? {
        return Broke(if written.error == KEY_TAKEN then Refused(ID_EXISTS) else Crashed(written.error)), [];
      }
      ghost var before := World(tables, state, actor);
      tables := written.value;
      var slices := reduced.value.slices;
      for n := 0 to |slices|
        invariant entries == Built(slices[..n], acting, state) && log == old(log) + entries
        invariant tables == written.value
      {
        assert slices[..n + 1][..n] == slices[..n];
        var entry := buildEntry(slices[n], acting, state);
        log := log + [entry];
        entries := entries + [entry];
      }
      assert slices[..|slices|] == slices;
      attempt := Went(World(tables, reduced.value.state, acting));
    }

    /** The same, as the next action of a batch that has got as far as `done`. */
    method ApplyNext(ghost start: World<T, S>, ghost done: seq<A>, bootstrap: bool, a: A, state: Option<S>, actor: Actor)
      returns (attempt: Attempt<World<T, S>>, entries: seq<E>)
      requires After(bootstrap, start, done) == Went(World(tables, state, actor))
      modifies this`tables, this`log
      ensures attempt == After(bootstrap, start, done + [a])
      ensures attempt.Went? ==> (
        && tables == attempt.world.tables
        && Broadcasts(bootstrap, start, done + [a])
           == Broadcasts(bootstrap, start, done) + (if entries == [] then [] else [Planned(a, entries)])
        && Entries(bootstrap, start, done + [a]) == Entries(bootstrap, start, done) + entries
        && log == old(log) + entries)
    {
      Last(bootstrap, start, done, a);
      attempt, entries := ApplyOne(bootstrap, a, state, actor);
    }

    /** The body of the transaction: stops at the first action that fails, leaving what is written so far. */
    method ApplyAll(actions: seq<A>, bootstrap: bool, loaded: Option<S>, actor: Actor)
      returns (attempt: Attempt<World<T, S>>, failed: nat, out: seq<E>, plan: seq<Planned<A, E>>)
      modifies this`tables, this`log
      ensures var start := World(old(tables), loaded, actor);
        match attempt
        case Went(end) =>
          && attempt == After(bootstrap, start, actions) && tables == end.tables
          && out == Entries(bootstrap, start, actions) && log == old(log) + out && Carries(plan, out)
          && plan == Broadcasts(bootstrap, start, actions)
        case Broke(_) =>
          failed < |actions| && After(bootstrap, start, actions[..failed]).Went? && attempt == After(bootstrap, start, actions[..failed + 1])
    {
      ghost var start := World(tables, loaded, actor);
      ghost var done := [];
      var state, acting := loaded, actor;
      plan, out, failed := [], [], 0;
      while failed < |actions|
        invariant failed <= |actions| && done == actions[..failed]
        invariant After(bootstrap, start, done) == Went(World(tables, state, acting))
        invariant out == Entries(bootstrap, start, done)
        invariant log == old(log) + out && Carries(plan, out) && plan == Broadcasts(bootstrap, start, done)
      {
        Around(actions, failed);
        var entries;
        attempt, entries := ApplyNext(start, done, bootstrap, actions[failed], state, acting);
        if attempt.Broke? {
          return;
        }
        plan := Record(plan, out, actions[failed], entries);
        Regroup(old(log), out, entries);
        done, out := done + [actions[failed]], out + entries;
        state, acting := attempt.world.state, attempt.world.actor;
        failed := failed + 1;
      }
      assert done == actions;
      attempt := Went(World(tables, state, acting));
    }

    /**
     * All or nothing: if every action goes through, the tables are those after the last one and the
     * log has grown by the entries of all the actions in order, which is what the response carries
     * and what the broadcasts flatten to; otherwise the response names the first action that
     * failed and why, and neither the tables nor the log have changed.
     */
    method Post(actions: seq<A>, bootstrap: bool, loaded: Option<S>, actor: Actor)
      returns (response: Response<E>, plan: seq<Planned<A, E>>, canonical: Actor)
      requires bootstrap ==> loaded.None?
      modifies this
      ensures var start := World(old(tables), loaded, actor);
        match After(bootstrap, start, actions)
        case Went(end) =>
          && response == Applied(Entries(bootstrap, start, actions))
          && tables == end.tables && log == old(log) + response.applied
          && Carries(plan, response.applied) && plan == Broadcasts(bootstrap, start, actions)
          && canonical == end.actor
        case Broke(failure) =>
          && tables == old(tables) && log == old(log) && plan == []
          && (failure.Crashed? ==> response == Error(failure.error))
          && (failure.Refused? ==>
                && response.Rejected? && response.code == failure.code
                && FirstFailure(bootstrap, start, actions, response.index))
    {
      var tablesBefore, logBefore := tables, log;
      var attempt, failed, out;
      attempt, failed, out, plan := ApplyAll(actions, bootstrap, loaded, actor);
      match attempt
      case Went(end) =>
        response, canonical := Applied(out), end.actor;
      case Broke(failure) =>
        FailureStays(bootstrap, World(tablesBefore, loaded, actor), actions, failed + 1);
        tables, log := tablesBefore, logBefore;
        plan, canonical := [], actor;
        response := if failure.Refused? then Rejected(failed, failure.code) else Error(failure.error);
    }

    // -------------------------------------------------------------- laws

    /** Once an action has failed, no later one is looked at. */
    lemma {:induction false} FailureStays(bootstrap: bool, w: World<T, S>, actions: seq<A>, n: nat)
      requires n <= |actions| && After(bootstrap, w, actions[..n]).Broke?
      ensures After(bootstrap, w, actions) == After(bootstrap, w, actions[..n])
      decreases |actions|
    {
      if n == |actions| {
        assert actions[..n] == actions;
      } else {
        var k := |actions| - 1;
        assert actions[..k][..n] == actions[..n];
        FailureStays(bootstrap, w, actions[..k], n);
      }
    }

    lemma Last(bootstrap: bool, w: World<T, S>, actions: seq<A>, a: A)
      requires After(bootstrap, w, actions).Went?
      ensures var middle := After(bootstrap, w, actions).world;
        && After(bootstrap, w, actions + [a]) == Step(bootstrap, middle, a)
        && Entries(bootstrap, w, actions + [a]) == Entries(bootstrap, w, actions) + EntriesOf(bootstrap, middle, a)
        && var entries := EntriesOf(bootstrap, middle, a);
           Broadcasts(bootstrap, w, actions + [a])
           == Broadcasts(bootstrap, w, actions) + if entries == [] then [] else [Planned(a, entries)]
    {
      assert (actions + [a])[..|actions|] == actions;
    }

    lemma {:induction false} WorldsSplit(bootstrap: bool, w: World<T, S>, first: seq<A>, rest: seq<A>)
      requires After(bootstrap, w, first).Went?
      ensures After(bootstrap, w, first + rest) == After(bootstrap, After(bootstrap, w, first).world, rest)
      decreases |rest|
    {
      if rest == [] {
        assert first + rest == first;
      } else {
        var k := |rest| - 1;
        assert (first + rest)[..|first| + k] == first + rest[..k];
        WorldsSplit(bootstrap, w, first, rest[..k]);
      }
    }

    /** A batch is its parts one after the other, as long as the actor and the state are carried over. */
    lemma {:induction false} BatchSplits(bootstrap: bool, w: World<T, S>, first: seq<A>, rest: seq<A>)
      requires After(bootstrap, w, first).Went?
      ensures var middle := After(bootstrap, w, first).world;
        && After(bootstrap, w, first + rest) == After(bootstrap, middle, rest)
        && Entries(bootstrap, w, first + rest) == Entries(bootstrap, w, first) + Entries(bootstrap, middle, rest)
      decreases |rest|
    {
      WorldsSplit(bootstrap, w, first, rest);
      if rest == [] {
        assert first + rest == first;
      } else {
        var front, a := rest[..|rest| - 1], rest[|rest| - 1];
        assert rest == front + [a];
        BatchSplits(bootstrap, w, first, front);
        SplitsFurther(bootstrap, w, first, front, a);
      }
    }

    lemma SplitsFurther(bootstrap: bool, w: World<T, S>, first: seq<A>, front: seq<A>, a: A)
      requires After(bootstrap, w, first).Went?
      requires var middle := After(bootstrap, w, first).world;
        && After(bootstrap, w, first + front) == After(bootstrap, middle, front)
        && Entries(bootstrap, w, first + front) == Entries(bootstrap, w, first) + Entries(bootstrap, middle, front)
      ensures Entries(bootstrap, w, first + (front + [a]))
           == Entries(bootstrap, w, first) + Entries(bootstrap, After(bootstrap, w, first).world, front + [a])
    {
      var middle := After(bootstrap, w, first).world;
      var after := After(bootstrap, middle, front);
      var more := if after.Broke? then [] else EntriesOf(bootstrap, after.world, a);
      assert first + (front + [a]) == first + front + [a];
      EntriesGrow(bootstrap, w, first + front, a);
      EntriesGrow(bootstrap, middle, front, a);
      Regroup(Entries(bootstrap, w, first), Entries(bootstrap, middle, front), more);
    }

    lemma EntriesGrow(bootstrap: bool, w: World<T, S>, actions: seq<A>, a: A)
      ensures var middle := After(bootstrap, w, actions);
        Entries(bootstrap, w, actions + [a])
        == Entries(bootstrap, w, actions) + if middle.Broke? then [] else EntriesOf(bootstrap, middle.world, a)
    {
      assert (actions + [a])[..|actions|] == actions;
    }

    /**
     * An action is carried out from one world to the next: no guard objects, the reducer returns the
     * next state, and the write made of it succeeds, which founds the party or acts in the actor's own.
     */
    ghost predicate CarriedOut(bootstrap: bool, w: World<T, S>, a: A, next: World<T, S>) {
      && guard(w.state, a, w.actor).None?
      && reduce(w.state, a).Ok?
      && var state := reduce(w.state, a).value.state;
         && next.state == state
         && if bootstrap && createsCharacter(a) && state.Some? then
              && persistBootstrap(w.tables, state.value, w.actor.user) == Ok(next.tables)
              && next.actor == Actor(w.actor.user, partyId(state.value), w.actor.role)
            else
              persist(w.tables, a, w.actor) == Ok(next.tables) && next.actor == w.actor
    }

    /** The worlds around the actions, each of them carried out. */
    ghost predicate Chain(bootstrap: bool, w: World<T, S>, actions: seq<A>, worlds: seq<World<T, S>>) {
      && |worlds| == |actions| + 1 && worlds[0] == w
      && forall n :: 0 <= n < |actions| ==> CarriedOut(bootstrap, worlds[n], actions[n], worlds[n + 1])
    }

    lemma OneWorldNext(bootstrap: bool, w: World<T, S>, a: A, next: World<T, S>)
      ensures CarriedOut(bootstrap, w, a, next) <==> Step(bootstrap, w, a) == Went(next)
    {
    }

    /** A batch goes through, ending where it does, exactly if its actions are carried out one after the other. */
    lemma {:induction false} GoesThrough(bootstrap: bool, w: World<T, S>, actions: seq<A>, worlds: seq<World<T, S>>)
      requires Chain(bootstrap, w, actions, worlds)
      ensures After(bootstrap, w, actions) == Went(worlds[|actions|])
      decreases |actions|
    {
      if actions != [] {
        var k := |actions| - 1;
        assert Chain(bootstrap, w, actions[..k], worlds[..k + 1]);
        GoesThrough(bootstrap, w, actions[..k], worlds[..k + 1]);
        OneWorldNext(bootstrap, worlds[k], actions[k], worlds[k + 1]);
      }
    }

    lemma {:induction false} WentThrough(bootstrap: bool, w: World<T, S>, actions: seq<A>) returns (worlds: seq<World<T, S>>)
      requires After(bootstrap, w, actions).Went?
      ensures Chain(bootstrap, w, actions, worlds) && worlds[|actions|] == After(bootstrap, w, actions).world
      decreases |actions|
    {
      if actions == [] {
        worlds := [w];
      } else {
        var k := |actions| - 1;
        var front := WentThrough(bootstrap, w, actions[..k]);
        worlds := front + [After(bootstrap, w, actions).world];
        OneWorldNext(bootstrap, front[k], actions[k], worlds[k + 1]);
        forall n | 0 <= n < |actions| ensures CarriedOut(bootstrap, worlds[n], actions[n], worlds[n + 1]) {
          if n < k {
            assert CarriedOut(bootstrap, front[n], actions[..k][n], front[n + 1]);
          }
        }
      }
    }

    /**
     * Why an action is not carried out: the first guard, reducer or write that objects, in that order. The
     * guard's code is passed on, a taken key is refused as such, and anything else thrown is an error.
     */
    ghost predicate FailsWith(bootstrap: bool, w: World<T, S>, a: A, f: Failure) {
      var g := guard(w.state, a, w.actor);
      if g.Some? then f == Refused(g.value)
      else
        match reduce(w.state, a)
        case Err(thrown) => f == Crashed(thrown)
        case Ok(reduced) =>
          var write := if bootstrap && createsCharacter(a) && reduced.state.Some?
                       then persistBootstrap(w.tables, reduced.state.value, w.actor.user) else persist(w.tables, a, w.actor);
          write.Err? && f == if write.error == "P2002" then Refused("id_already_exists") else Crashed(write.error)
    }

    ghost predicate FailsAt(bootstrap: bool, w: World<T, S>, actions: seq<A>, n: nat, worlds: seq<World<T, S>>, f: Failure) {
      n < |actions| && Chain(bootstrap, w, actions[..n], worlds) && FailsWith(bootstrap, worlds[n], actions[n], f)
    }

    /** A batch fails with a failure exactly if the actions up to some one are carried out and that one fails with it. */
    lemma FailsThrough(bootstrap: bool, w: World<T, S>, actions: seq<A>, n: nat, worlds: seq<World<T, S>>, f: Failure)
      requires FailsAt(bootstrap, w, actions, n, worlds, f)
      ensures After(bootstrap, w, actions) == Broke(f) && FirstFailure(bootstrap, w, actions, n)
    {
      GoesThrough(bootstrap, w, actions[..n], worlds);
      assert actions[..n + 1][..n] == actions[..n];
      FailureStays(bootstrap, w, actions, n + 1);
    }

    lemma WhyFailed(bootstrap: bool, w: World<T, S>, actions: seq<A>, n: nat) returns (worlds: seq<World<T, S>>)
      requires FirstFailure(bootstrap, w, actions, n)
      ensures After(bootstrap, w, actions).Broke?
      ensures FailsAt(bootstrap, w, actions, n, worlds, After(bootstrap, w, actions).failure)
    {
      worlds := WentThrough(bootstrap, w, actions[..n]);
      assert actions[..n + 1][..n] == actions[..n];
      FailureStays(bootstrap, w, actions, n + 1);
    }

    lemma {:induction false} BuiltEach(slices: seq<L>, actor: Actor, state: Option<S>, k: nat)
      ensures |Built(slices, actor, state)| == |slices|
      ensures k < |slices| ==> Built(slices, actor, state)[k] == buildEntry(slices[k], actor, state)
      decreases |slices|
    {
      if slices != [] {
        BuiltEach(slices[..|slices| - 1], actor, state, k);
      }
    }

    /**
     * The log gets an entry for each slice of each action carried out, in order, built for the state
     * before that action and the actor as they are after it.
     */
    lemma EntriesEach(bootstrap: bool, w: World<T, S>, actions: seq<A>, worlds: seq<World<T, S>>, n: nat, k: nat)
      requires Chain(bootstrap, w, actions, worlds) && n < |actions|
      ensures Entries(bootstrap, w, []) == []
      ensures CarriedOut(bootstrap, worlds[n], actions[n], worlds[n + 1])
      ensures var slices := reduce(worlds[n].state, actions[n]).value.slices;
              var before, now := Entries(bootstrap, w, actions[..n]), Entries(bootstrap, w, actions[..n + 1]);
        && |now| == |before| + |slices| && before <= now <= Entries(bootstrap, w, actions)
        && (k < |slices| ==> now[|before| + k] == buildEntry(slices[k], worlds[n + 1].actor, worlds[n].state))
    {
      var front := actions[..n];
      assert Chain(bootstrap, w, front, worlds[..n + 1]);
      GoesThrough(bootstrap, w, front, worlds[..n + 1]);
      EntriesGrow(bootstrap, w, front, actions[n]);
      assert front + [actions[n]] == actions[..n + 1];
      OneWorldNext(bootstrap, worlds[n], actions[n], worlds[n + 1]);
      BuiltEach(reduce(worlds[n].state, actions[n]).value.slices, worlds[n + 1].actor, worlds[n].state, k);
      EntriesPrefix(bootstrap, w, actions, n + 1);
    }

    /** An action carried out is broadcast with just its entries, after those before it, and not at all if it has none. */
    lemma BroadcastsEach(bootstrap: bool, w: World<T, S>, actions: seq<A>, worlds: seq<World<T, S>>, n: nat)
      requires Chain(bootstrap, w, actions, worlds) && n < |actions|
      ensures Broadcasts(bootstrap, w, []) == []
      ensures var before, now := Entries(bootstrap, w, actions[..n]), Entries(bootstrap, w, actions[..n + 1]);
        && before <= now
        && Broadcasts(bootstrap, w, actions[..n + 1])
           == Broadcasts(bootstrap, w, actions[..n]) + if now == before then [] else [Planned(actions[n], now[|before|..])]
    {
      EntriesEach(bootstrap, w, actions, worlds, n, 0);
      assert Chain(bootstrap, w, actions[..n], worlds[..n + 1]);
      GoesThrough(bootstrap, w, actions[..n], worlds[..n + 1]);
      Last(bootstrap, w, actions[..n], actions[n]);
      assert actions[..n] + [actions[n]] == actions[..n + 1];
    }

    lemma {:induction false} EntriesPrefix(bootstrap: bool, w: World<T, S>, actions: seq<A>, n: nat)
      requires n <= |actions|
      ensures Entries(bootstrap, w, actions[..n]) <= Entries(bootstrap, w, actions)
      decreases |actions|
    {
      if n < |actions| {
        var k := |actions| - 1;
        EntriesPrefix(bootstrap, w, actions[..k], n);
        assert actions[..k][..n] == actions[..n];
      } else {
        assert actions[..n] == actions;
      }
    }

    /** The n-th action of a batch that goes through founds the party. */
    predicate FoundsAt(bootstrap: bool, w: World<T, S>, actions: seq<A>, n: nat)
      requires n < |actions|
    {
      && bootstrap && createsCharacter(actions[n])
      && var after := After(bootstrap, w, actions[..n + 1]); after.Went? && after.world.state.Some?
    }

    /** One action moves the actor if it founds the party, and not otherwise. */
    lemma ActorSteps(bootstrap: bool, w: World<T, S>, actions: seq<A>, n: nat)
      requires n < |actions| && After(bootstrap, w, actions[..n + 1]).Went?
      ensures After(bootstrap, w, actions[..n]).Went?
      ensures var before, after := After(bootstrap, w, actions[..n]).world, After(bootstrap, w, actions[..n + 1]).world;
        after.actor == if FoundsAt(bootstrap, w, actions, n) then before.actor.(party := partyId(after.state.value)) else before.actor
    {
      assert actions[..n + 1][..n] == actions[..n];
    }

    /** The actor stays in their party as long as no action founds one. */
    lemma {:induction false} ActorStays(bootstrap: bool, w: World<T, S>, actions: seq<A>, lo: nat, hi: nat)
      requires lo <= hi <= |actions| && After(bootstrap, w, actions[..hi]).Went?
      requires forall n :: lo <= n < hi ==> !FoundsAt(bootstrap, w, actions, n)
      ensures After(bootstrap, w, actions[..lo]).Went?
      ensures After(bootstrap, w, actions[..hi]).world.actor == After(bootstrap, w, actions[..lo]).world.actor
      decreases hi
    {
      if lo < hi {
        ActorSteps(bootstrap, w, actions, hi - 1);
        ActorStays(bootstrap, w, actions, lo, hi - 1);
      }
    }

    lemma {:induction false} SameUser(bootstrap: bool, w: World<T, S>, actions: seq<A>)
      requires After(bootstrap, w, actions).Went?
      ensures var actor := After(bootstrap, w, actions).world.actor; actor.user == w.actor.user && actor.role == w.actor.role
      decreases |actions|
    {
      if actions != [] {
        SameUser(bootstrap, w, actions[..|actions| - 1]);
      }
    }

    /**
     * The actor is who they were, in the party the reducer named at the last founding action, or in
     * the one they started in if there is none; outside a bootstrap there never is.
     */
    lemma ActorsParty(bootstrap: bool, w: World<T, S>, actions: seq<A>, last: int)
      requires After(bootstrap, w, actions).Went? && -1 <= last < |actions|
      requires last >= 0 ==> FoundsAt(bootstrap, w, actions, last)
      requires forall n :: last < n < |actions| ==> !FoundsAt(bootstrap, w, actions, n)
      ensures var actor := After(bootstrap, w, actions).world.actor;
        actor == w.actor.(party := if last < 0 then w.actor.party
                                   else partyId(After(bootstrap, w, actions[..last + 1]).world.state.value))
    {
      assert actions[..|actions|] == actions && actions[..0] == [];
      SameUser(bootstrap, w, actions);
      ActorStays(bootstrap, w, actions, last + 1, |actions|);
      if last >= 0 {
        ActorSteps(bootstrap, w, actions, last);
      }
    }
  }
}
