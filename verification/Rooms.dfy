/** The small model of the server: who is in which room, who operates it, who is muted. */
module Rooms {
  import opened ServerSpec

  datatype Rooms = Rooms(room: map<Id, string>, boss: map<string, Id>, muted: set<Id>)

  const NOBODY := Rooms(map[], map[], {})

  predicate In(a: Rooms, id: Id, c: string) {
    id in a.room && a.room[id] == c
  }

  predicate HasOthers(a: Rooms, id: Id, c: string) {
    exists x :: x in a.room && a.room[x] == c && x != id
  }

  /** Every room has one operator, who is in it, and only those in rooms are muted. */
  predicate RoomsOk(a: Rooms) {
    && (forall c | c in a.boss :: In(a, a.boss[c], c))
    && (forall id | id in a.room :: a.room[id] in a.boss)
    && (forall id | id in a.muted :: id in a.room)
  }

  /** Who may do what: only an operator mutes or removes another, and only in its own room. */
  predicate Allowed(a: Rooms, act: Act) {
    match act
    case Enter(id, c) => id !in a.room
    case Leave(actor, id, heir) =>
      && id in a.room && a.room[id] in a.boss
      && (actor == id || a.boss[a.room[id]] == actor)
      && (a.boss[a.room[id]] == id && HasOthers(a, id, a.room[id]) ==> In(a, heir, a.room[id]) && heir != id)
    case SetMute(actor, id, _) =>
      id in a.room && a.room[id] in a.boss && a.boss[a.room[id]] == actor
  }

  function Do(a: Rooms, act: Act): Rooms
    requires Allowed(a, act)
  {
    match act
    case Enter(id, c) =>
      Rooms(a.room[id := c], if c in a.boss then a.boss else a.boss[c := id], a.muted)
    case Leave(_, id, heir) =>
      var c := a.room[id];
      Rooms(a.room - {id},
            if !HasOthers(a, id, c) then a.boss - {c} else if a.boss[c] == id then a.boss[c := heir] else a.boss,
            a.muted - {id})
    case SetMute(_, id, muted) =>
      a.(muted := if muted then a.muted + {id} else a.muted - {id})
  }

  lemma DoKeepsOk(a: Rooms, act: Act)
    requires RoomsOk(a) && Allowed(a, act)
    ensures RoomsOk(Do(a, act))
  {
  }

  ghost predicate AllAllowed(a: Rooms, acts: seq<Act>)
    decreases |acts|
  {
    acts == [] || (Allowed(a, acts[0]) && AllAllowed(Do(a, acts[0]), acts[1..]))
  }

  ghost function DoAll(a: Rooms, acts: seq<Act>): Rooms
    requires AllAllowed(a, acts)
    decreases |acts|
  {
    if acts == [] then a else DoAll(Do(a, acts[0]), acts[1..])
  }

  lemma {:induction false} DoAllConcat(a: Rooms, first: seq<Act>, rest: seq<Act>)
    requires AllAllowed(a, first) && AllAllowed(DoAll(a, first), rest)
    ensures AllAllowed(a, first + rest)
    ensures DoAll(a, first + rest) == DoAll(DoAll(a, first), rest)
    decreases |first|
  {
    if first == [] {
      assert first + rest == rest;
    } else {
      DoAllConcat(Do(a, first[0]), first[1..], rest);
      assert (first + rest)[1..] == first[1..] + rest;
    }
  }
}
