/** The debounced saver of the web client (apps/web/src/db/save.ts) and every interleaving of its events. */
module Saver {
  import opened Sequences
  import opened Wrappers

  /** What a snapshot may be at run time; a list is an object without the fields looked for. */
  datatype Json = Undefined | Null | Text(text: string) | Scalar | Object(fields: map<string, Json>)

  function Field(j: Json, name: string): Json
    requires j.Object?
  {
    if name in j.fields then j.fields[name] else Undefined
  }

  /** What lies at the end of a path of field names; nothing does if something on the way is no object. */
  function At(j: Json, path: seq<string>): Json
    decreases |path|
  {
    if path == [] then j else if j.Object? then At(Field(j, path[0]), path[1..]) else Undefined
  }

  /** The id of the party a snapshot belongs to. */
  function PartyIdFromBlob(state: Json): (r: Option<string>)
    ensures r.Some? ==> r.value != ""
  {
    if !state.Object? then None
    else
      var appState := Field(state, "appState");
      if !appState.Object? then None
      else
        var party := Field(appState, "party");
        if !party.Object? then None
        else
          var id := Field(party, "id");
          if id.Text? && id.text != "" then Some(id.text) else None
  }

  lemma PartyIdPath(state: Json)
    ensures At(state, ["appState", "party", "id"])
         == if state.Object? && Field(state, "appState").Object? && Field(Field(state, "appState"), "party").Object?
            then Field(Field(Field(state, "appState"), "party"), "id") else Undefined
  {
    var path := ["appState", "party", "id"];
    assert path[1..] == ["party", "id"] && path[1..][1..] == ["id"] && path[1..][1..][1..] == [];
  }

  /** The id found is the text at `appState.party.id`, and it is found exactly if that is a non-empty text. */
  lemma PartyIdLaw(state: Json, id: string)
    ensures PartyIdFromBlob(state) == Some(id) <==> id != "" && At(state, ["appState", "party", "id"]) == Text(id)
  {
    PartyIdPath(state);
  }

  datatype Write = Write(partyId: string, blob: Json)

  /** The closure's variables, the runtime's timers and the store's writes in order. */
  datatype State = State(
    timer: Option<nat>, pending: Json, pendingPartyId: Option<string>, hasPending: bool,
    live: set<nat>, nextTimer: nat, writes: seq<Write>)

  const INITIAL := State(None, Undefined, None, false, {}, 0, [])

  datatype Event = Save(state: Json) | Fire(timer: nat) | Flush

  function Commit(s: State): State {
    if !s.hasPending then s
    else
      var t := s.(hasPending := false, pending := Undefined, pendingPartyId := None);
      if s.pendingPartyId.None? then t else t.(writes := s.writes + [Write(s.pendingPartyId.value, s.pending)])
  }

  function Stopped(s: State): State {
    if s.timer.Some? then s.(live := s.live - {s.timer.value}) else s
  }

  function Step(s: State, e: Event): State {
    match e
    case Save(blob) =>
      var partyId := PartyIdFromBlob(blob);
      if partyId.None? then s
      else
        Stopped(s).(pending := blob, pendingPartyId := partyId, hasPending := true,
                    timer := Some(s.nextTimer), live := Stopped(s).live + {s.nextTimer}, nextTimer := s.nextTimer + 1)
    case Fire(t) => Commit(s.(live := s.live - {t}, timer := None))
    case Flush => Commit(Stopped(s).(timer := None))
  }

  class DebouncedSaver {
    var timer: Option<nat>
    var pending: Json
    var pendingPartyId: Option<string>
    var hasPending: bool
    // the runtime around the closure
    var live: set<nat>
    var nextTimer: nat
    var writes: seq<Write>

    ghost function Now(): State
      reads this
    {
      State(timer, pending, pendingPartyId, hasPending, live, nextTimer, writes)
    }

    constructor ()
      ensures Now() == INITIAL
    {
      timer, pending, pendingPartyId, hasPending := None, Undefined, None, false;
      live, nextTimer, writes := {}, 0, [];
    }

    method Put(blob: Json, partyId: string)
      modifies this`writes
      ensures writes == old(writes) + [Write(partyId, blob)]
    {
      writes := writes + [Write(partyId, blob)];
    }

    method ClearTimeout()
      requires timer.Some?
      modifies this`live
      ensures live == old(live) - {timer.value}
    {
      live := live - {timer.value};
    }

    method CommitPending()
      modifies this
      ensures Now() == Commit(old(Now()))
    {
      if !hasPending {
        return;
      }
      var snapshot, partyId := pending, pendingPartyId;
      hasPending := false;
      pending := Undefined;
      pendingPartyId := None;
      if partyId.None? {
        return;
      }
      Put(snapshot, partyId.value);
    }

    method SaveLater(state: Json)
      modifies this
      ensures Now() == Step(old(Now()), Save(state))
    {
      var partyId := PartyIdFromBlob(state);
      if partyId.None? {
        return;
      }
      pending := state;
      pendingPartyId := partyId;
      hasPending := true;
      if timer.Some? {
        ClearTimeout();
      }
      timer := Some(nextTimer);
      live := live + {nextTimer};
      nextTimer := nextTimer + 1;
    }

    /** The runtime calls back a timer that is still live. */
    method OnTimeout(t: nat)
      requires t in live
      modifies this
      ensures Now() == Step(old(Now()), Fire(t))
    {
      live := live - {t};
      timer := None;
      CommitPending();
    }

    method FlushNow()
      modifies this
      ensures Now() == Step(old(Now()), Flush)
    {
      if timer.Some? {
        ClearTimeout();
        timer := None;
      }
      CommitPending();
    }
  }

  // ---------------------------------------------------------------- every interleaving

  function Run(events: seq<Event>): State {
    if events == [] then INITIAL else Step(Run(events[..|events| - 1]), events[|events| - 1])
  }

  /** Only live timers fire. */
  predicate Possible(events: seq<Event>) {
    events == [] ||
    var before := events[..|events| - 1];
    var last := events[|events| - 1];
    Possible(before) && (last.Fire? ==> last.timer in Run(before).live)
  }

  /** The snapshots handed to the saver that belong to a party. */
  function Saves(events: seq<Event>): seq<Json> {
    if events == [] then []
    else
      var last := events[|events| - 1];
      Saves(events[..|events| - 1])
      + (if last.Save? && PartyIdFromBlob(last.state).Some? then [last.state] else [])
  }

  function Blobs(writes: seq<Write>): seq<Json> {
    seq(|writes|, (i: nat) requires i < |writes| => writes[i].blob)
  }

  ghost predicate Sound(s: State, saves: seq<Json>) {
    && s.live == (if s.timer.Some? then {s.timer.value} else {})
    && (s.timer.Some? ==> s.timer.value < s.nextTimer)
    && (s.hasPending <==> s.timer.Some?)
    && (s.hasPending ==> saves != [] && s.pending == saves[|saves| - 1])
    && (s.hasPending ==> s.pendingPartyId.Some? && s.pendingPartyId == PartyIdFromBlob(s.pending))
    && (!s.hasPending && saves != [] ==> s.writes != [] && s.writes[|s.writes| - 1].blob == saves[|saves| - 1])
    && (forall w :: w in s.writes ==> PartyIdFromBlob(w.blob) == Some(w.partyId))
    && Subsequence(Blobs(s.writes), if s.hasPending then saves[..|saves| - 1] else saves)
  }

  lemma AppendBoth(part: seq<Json>, whole: seq<Json>, x: Json)
    requires Subsequence(part, whole)
    ensures Subsequence(part, whole + [x])
    ensures Subsequence(part + [x], whole + [x])
  {
    var at: seq<nat> :| Spells(at, part, whole);
    assert Spells(at, part, whole + [x]);
    assert Spells(at + [|whole|], part + [x], whole + [x]);
  }

  lemma CommitSound(s: State, saves: seq<Json>)
    requires Sound(s, saves)
    ensures Sound(Commit(s.(timer := None, live := {})), saves)
  {
    if s.hasPending {
      var front := saves[..|saves| - 1];
      assert saves == front + [s.pending];
      AppendBoth(Blobs(s.writes), front, s.pending);
      assert Blobs(s.writes + [Write(s.pendingPartyId.value, s.pending)]) == Blobs(s.writes) + [s.pending];
    }
  }

  lemma SaveSound(s: State, saves: seq<Json>, blob: Json)
    requires Sound(s, saves) && PartyIdFromBlob(blob).Some?
    ensures Sound(Step(s, Save(blob)), saves + [blob])
  {
    assert (saves + [blob])[..|saves|] == saves;
    if s.hasPending {
      AppendBoth(Blobs(s.writes), saves[..|saves| - 1], saves[|saves| - 1]);
      assert saves == saves[..|saves| - 1] + [saves[|saves| - 1]];
    }
  }

  /**
   * Whatever the order of saves, timeouts and flushes: at most one timer is live, and one is exactly
   * while something is pending; each snapshot is written under its own party's id; the writes are a
   * subsequence of the saves; and once nothing is pending the last write is the last save.
   */
  lemma {:induction false} AlwaysSound(events: seq<Event>)
    requires Possible(events)
    ensures Sound(Run(events), Saves(events))
  {
    if events == [] {
      assert Spells([], Blobs([]), []);
    } else {
      var before, last := events[..|events| - 1], events[|events| - 1];
      AlwaysSound(before);
      var s, saves := Run(before), Saves(before);
      match last {
        case Save(blob) =>
          if PartyIdFromBlob(blob).Some? {
            SaveSound(s, saves, blob);
          } else {
            assert Saves(events) == saves + [] == saves;
          }
        case Fire(t) =>
          CommitSound(s, saves);
          assert s.(live := s.live - {t}, timer := None) == s.(timer := None, live := {});
        case Flush =>
          CommitSound(s, saves);
          assert Stopped(s).(timer := None) == s.(timer := None, live := {});
      }
    }
  }

  /** A flush leaves no timer behind and nothing unsaved. */
  lemma FlushSavesAll(events: seq<Event>)
    requires Possible(events)
    ensures var s := Run(events + [Flush]);
      && s.live == {} && !s.hasPending
      && Subsequence(Blobs(s.writes), Saves(events))
      && (Saves(events) != [] ==> s.writes != [] && s.writes[|s.writes| - 1].blob == Saves(events)[|Saves(events)| - 1])
  {
    assert (events + [Flush])[..|events|] == events;
    assert Saves(events + [Flush]) == Saves(events) + [] == Saves(events);
    AlwaysSound(events + [Flush]);
  }

  /** Timers are numbered as they are made, so one made later is none of those before. */
  lemma {:induction false} TimersCounted(events: seq<Event>, n: nat)
    requires Possible(events) && n <= |events|
    ensures var then' := Run(events[..n]); then'.timer.Some? ==> then'.timer.value < Run(events).nextTimer
    decreases |events|
  {
    if n == |events| {
      assert events[..n] == events;
      AlwaysSound(events);
    } else {
      var before := events[..|events| - 1];
      assert before[..n] == events[..n];
      TimersCounted(before, n);
    }
  }

  /**
   * A save of some party's snapshot makes that what is pending and starts the wait again: the one live
   * timer is a new one, which none of the earlier events had started. Nothing is written.
   */
  lemma SaveRestarts(events: seq<Event>, blob: Json, n: nat)
    requires Possible(events) && PartyIdFromBlob(blob).Some? && n <= |events|
    ensures var s := Run(events + [Save(blob)]);
      && s.timer.Some? && s.live == {s.timer.value} && Run(events[..n]).timer != s.timer
      && s.hasPending && s.pending == blob && s.writes == Run(events).writes
  {
    assert (events + [Save(blob)])[..|events|] == events;
    AlwaysSound(events);
    AlwaysSound(events + [Save(blob)]);
    TimersCounted(events, n);
  }

  /** A snapshot of no party changes nothing. */
  lemma NoPartyIgnored(events: seq<Event>, blob: Json)
    requires PartyIdFromBlob(blob).None?
    ensures Run(events + [Save(blob)]) == Run(events)
  {
    assert (events + [Save(blob)])[..|events|] == events;
  }

  /** The end of the wait, and a flush, write what is pending and only that, under its party's id, and stop the timer. */
  lemma PendingWritten(events: seq<Event>, e: Event)
    requires Possible(events + [e]) && !e.Save?
    ensures Possible(events)
    ensures var before, after := Run(events), Run(events + [e]);
      && after.live == {} && after.timer.None? && !after.hasPending
      && (!before.hasPending ==> after.writes == before.writes)
      && (before.hasPending ==> (
            && PartyIdFromBlob(before.pending).Some?
            && after.writes == before.writes + [Write(PartyIdFromBlob(before.pending).value, before.pending)]))
      && (e.Fire? ==> before.hasPending)
  {
    assert (events + [e])[..|events|] == events;
    AlwaysSound(events);
    AlwaysSound(events + [e]);
  }
}
