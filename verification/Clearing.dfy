/** The loop that clears closed connections after every poll. */
module Clearing {
  import opened Text
  import opened Message
  import opened ServerSpec
  import opened Rooms
  import opened Invariant
  import opened Runs

  /** One turn of the loop: the connection it looks at, and the member that comes first in
      the hash table if that connection leaves. */
  datatype Turn = Turn(id: Id, pick: Id)

  ghost function ClearAll(s: State, turns: seq<Turn>): Outcome
    decreases |turns|
  {
    if turns == [] then Ok(s, [])
    else if turns[0].id !in s.peers then ClearAll(s, turns[1..])
    else
      match Reap(s, turns[0].id, turns[0].pick)
      case Abort => Abort
      case Ok(t, acts) =>
        match ClearAll(t, turns[1..])
        case Abort => Abort
        case Ok(u, more) => Ok(u, acts + more)
  }

  function Visited(turns: seq<Turn>): set<Id> {
    set t | t in turns :: t.id
  }

  /** The pass as a run of the server. */
  ghost function ReapEvents(s: State, turns: seq<Turn>): seq<Event>
    decreases |turns|
  {
    if turns == [] then []
    else
      var id, pick := turns[0].id, turns[0].pick;
      if id !in s.peers || s.peers[id].connected then ReapEvents(s, turns[1..])
      else if Reap(s, id, pick).Abort? then []
      else [IsReaped(id, pick)] + ReapEvents(Reap(s, id, pick).state, turns[1..])
  }

  lemma {:induction false} ClearAllIsRun(s: State, turns: seq<Turn>)
    requires ClearAll(s, turns).Ok?
    ensures Legal(s, ReapEvents(s, turns)) && Run(s, ReapEvents(s, turns)) == ClearAll(s, turns).state
    decreases |turns|
  {
    if turns != [] {
      var id, pick := turns[0].id, turns[0].pick;
      if id !in s.peers || s.peers[id].connected {
        ClearAllIsRun(s, turns[1..]);
      } else {
        var t := Reap(s, id, pick).state;
        ClearAllIsRun(t, turns[1..]);
        RunOne(s, IsReaped(id, pick));
        RunConcat(s, [IsReaped(id, pick)], ReapEvents(t, turns[1..]));
      }
    }
  }

  lemma {:induction false} ClearOneMore(s: State, turns: seq<Turn>, last: Turn)
    requires ClearAll(s, turns).Ok? && last.id in ClearAll(s, turns).state.peers
    requires Reap(ClearAll(s, turns).state, last.id, last.pick).Ok?
    ensures ClearAll(s, turns + [last]).Ok?
    ensures ClearAll(s, turns + [last]).state == Reap(ClearAll(s, turns).state, last.id, last.pick).state
    decreases |turns|
  {
    if turns == [] {
      assert turns + [last] == [last] && [last][1..] == [];
    } else {
      assert (turns + [last])[1..] == turns[1..] + [last];
      if turns[0].id !in s.peers {
        ClearOneMore(s, turns[1..], last);
      } else {
        ClearOneMore(Reap(s, turns[0].id, turns[0].pick).state, turns[1..], last);
      }
    }
  }

  /** `t` is `s` without the connections in `gone`. */
  ghost predicate Lacks(s: State, t: State, gone: set<Id>) {
    && t.peers.Keys == s.peers.Keys - gone
    && t.infos == s.infos - gone
    && forall x | x in t.peers :: t.peers[x].connected == s.peers[x].connected
  }

  ghost predicate OnlyLeave(acts: seq<Act>, gone: set<Id>) {
    forall act | act in acts :: act.Leave? && act.id in gone
  }

  predicate InNoRoom(rooms: map<string, Room>, id: Id) {
    forall c | c in rooms :: id !in rooms[c].members
  }

  predicate Cleaned(t: State, id: Id) {
    id in t.peers && !t.peers[id].connected && InNoRoom(t.rooms, id)
  }

  /** The turn for `id` will not throw, and takes it out of every channel. */
  ghost predicate Clearable(s: State, id: Id) {
    forall pick :: IsCleaned(s, id, pick)
  }

  ghost predicate IsCleaned(s: State, id: Id, pick: Id) {
    Goodbye(s, id, pick).Ok? && Cleaned(Goodbye(s, id, pick).state, id)
  }

  lemma DetachedIsOut(s: State, id: Id)
    requires id in s.infos && Inv(Detached(s, id))
    ensures InNoRoom(s.rooms, id)
  {
    var t := Detached(s, id);
    forall c | c in s.rooms
      ensures id !in s.rooms[c].members
    {
      assert IsMember(t, c, id) <==> HasJoined(t, c, id);
    }
  }

  /** Nothing but the departure of `id`. */
  ghost predicate OnlyGone(s: State, o: Outcome, id: Id) {
    && o.Ok? && o.state.infos == s.infos && Heard(s, o.state)
    && InNoRoom(o.state.rooms, id) && OnlyLeave(o.acts, {id})
  }

  lemma FarewellEffect(s: State, id: Id, c: string, m: Message, pick: Id)
    requires Inv(s) && id in s.infos && s.infos[id].joined == Some(c)
    ensures c in s.rooms && OnlyGone(s, Farewell(s, id, c, m, pick), id)
  {
    GoodbyeFollows(s, Model(s), id, c, m, pick);
    DetachedIsOut(Farewell(s, id, c, m, pick).state, id);
  }

  /** A closed connection is out of every channel before it is erased. */
  lemma GoodbyeEffect(s: State, id: Id, pick: Id)
    requires Inv(s) && id in s.infos
    ensures OnlyGone(s, Goodbye(s, id, pick), id)
  {
    var joined, nick := s.infos[id].joined, s.infos[id].nick;
    if joined.Some? {
      FarewellEffect(s, id, joined.value, ClearingMessage(joined.value, nick.value), pick);
    } else {
      assert Detached(s, id).infos == s.infos;
      DetachedIsOut(s, id);
    }
  }

  lemma ReapEffect(s: State, id: Id, pick: Id)
    requires Inv(s) && id in s.peers && !s.peers[id].connected
    ensures Reap(s, id, pick).Ok?
    ensures Lacks(s, Reap(s, id, pick).state, {id}) && OnlyLeave(Reap(s, id, pick).acts, {id})
  {
    GoodbyeEffect(s, id, pick);
  }

  lemma StillClearable(s: State, turns: seq<Turn>, id: Id)
    requires Inv(s) && ClearAll(s, turns).Ok?
    requires var t := ClearAll(s, turns).state; id in t.peers && !t.peers[id].connected
    ensures Clearable(ClearAll(s, turns).state, id)
  {
    ClearAllEffect(s, Model(s), turns);
    var t := ClearAll(s, turns).state;
    forall pick
      ensures IsCleaned(t, id, pick)
    {
      GoodbyeEffect(t, id, pick);
    }
  }

  function ClosedAmong(s: State, turns: seq<Turn>): set<Id> {
    set x | x in Visited(turns) && x in s.peers && !s.peers[x].connected
  }

  ghost predicate Cleared(s: State, a: Rooms, o: Outcome, gone: set<Id>) {
    Follows(s, a, o) && Lacks(s, o.state, gone) && OnlyLeave(o.acts, gone)
  }

  lemma ClearTwice(s: State, a: Rooms, t: State, first: seq<Act>, u: State, rest: seq<Act>, x: set<Id>, y: set<Id>)
    requires Cleared(s, a, Ok(t, first), x) && Cleared(t, DoAll(a, first), Ok(u, rest), y)
    ensures Cleared(s, a, Ok(u, first + rest), x + y)
  {
    DoAllConcat(a, first, rest);
    assert s.infos - x - y == s.infos - (x + y);
  }

  lemma ClosedHead(s: State, t: State, turns: seq<Turn>)
    requires turns != []
    ensures turns[0].id !in s.peers || s.peers[turns[0].id].connected ==>
              ClosedAmong(s, turns) == ClosedAmong(s, turns[1..])
    ensures turns[0].id in s.peers && !s.peers[turns[0].id].connected && Lacks(s, t, {turns[0].id}) ==>
              ClosedAmong(s, turns) == {turns[0].id} + ClosedAmong(t, turns[1..])
  {
    assert forall t :: t in turns <==> t == turns[0] || t in turns[1..];
    assert Visited(turns) == {turns[0].id} + Visited(turns[1..]);
  }

  lemma {:induction false} ClearAllEffect(s: State, a: Rooms, turns: seq<Turn>)
    requires Inv(s) && Shows(s, a)
    ensures Cleared(s, a, ClearAll(s, turns), ClosedAmong(s, turns))
    decreases |turns|
  {
    if turns == [] {
      assert s.infos - {} == s.infos;
      assert ClosedAmong(s, turns) == {};
    } else {
      var id, pick, rest := turns[0].id, turns[0].pick, turns[1..];
      if id !in s.peers || s.peers[id].connected {
        ClosedHead(s, s, turns);
        ClearAllEffect(s, a, rest);
        if id in s.peers {
          assert [] + ClearAll(s, rest).acts == ClearAll(s, rest).acts;
        }
      } else {
        var o := Reap(s, id, pick);
        ReapEffect(s, id, pick);
        ReapFollows(s, a, id, pick);
        ClearAllEffect(o.state, DoAll(a, o.acts), rest);
        var later := ClearAll(o.state, rest);
        ClearTwice(s, a, o.state, o.acts, later.state, later.acts, {id}, ClosedAmong(o.state, rest));
        ClosedHead(s, o.state, turns);
      }
    }
  }

  /** The pass over every connection never throws; it ends with exactly the connected ones,
      whose registration, places and mute flags are what they were; every channel left has
      only connected members and one operator, the old one if it is connected. */
  lemma ReapPass(s: State, turns: seq<Turn>)
    requires Inv(s) && s.peers.Keys <= Visited(turns)
    ensures ClearAll(s, turns).Ok?
    ensures var t := ClearAll(s, turns).state;
            && Inv(t)
            && (forall x :: x in t.peers <==> x in s.peers && s.peers[x].connected)
            && (forall x | x in t.peers :: t.peers[x].connected && x in t.infos && t.infos[x] == s.infos[x])
            && t.infos.Keys == t.peers.Keys
            && (forall c, x :: IsMember(t, c, x) <==> IsMember(s, c, x) && s.peers[x].connected)
            && (forall c, x | x in t.peers :: IsMuted(t, c, x) <==> IsMuted(s, c, x))
            && (forall c, x | x in t.peers && IsOperator(s, c, x) :: IsOperator(t, c, x))
  {
    var a := Model(s);
    ClearAllEffect(s, a, turns);
    var t, acts := ClearAll(s, turns).state, ClearAll(s, turns).acts;
    MembersStay(s, t);
    ModelOk(s, a);
    forall c, x | x in t.peers && IsMember(s, c, x)
      ensures IsMuted(t, c, x) <==> IsMuted(s, c, x)
      ensures IsOperator(s, c, x) ==> IsOperator(t, c, x)
    {
      Survives(s, a, t, acts, c, x);
    }
  }

  lemma MembersStay(s: State, t: State)
    requires Inv(s) && Inv(t) && forall x :: x in t.peers <==> x in s.peers && s.peers[x].connected
    requires forall x | x in t.peers :: t.infos[x] == s.infos[x]
    ensures forall c, x :: IsMember(t, c, x) <==> IsMember(s, c, x) && s.peers[x].connected
  {
    forall c, x
      ensures IsMember(t, c, x) <==> IsMember(s, c, x) && s.peers[x].connected
    {
      assert IsMember(t, c, x) <==> HasJoined(t, c, x);
      assert IsMember(s, c, x) <==> HasJoined(s, c, x);
    }
  }

  lemma Survives(s: State, a: Rooms, t: State, acts: seq<Act>, c: string, x: Id)
    requires Inv(s) && Inv(t) && Shows(s, a) && RoomsOk(a) && AllAllowed(a, acts) && Shows(t, DoAll(a, acts))
    requires IsMember(s, c, x) && forall act | act in acts :: !Touches(act, x)
    ensures IsMuted(t, c, x) <==> IsMuted(s, c, x)
    ensures IsOperator(s, c, x) ==> IsOperator(t, c, x)
  {
    var b := DoAll(a, acts);
    assert HasJoined(s, c, x);
    assert In(a, x, c);
    PlaceStays(a, acts, x, c);
    assert In(b, x, c);
    assert HasJoined(t, c, x);
    assert IsMember(t, c, x);
    assert IsMuted(t, b.room[x], x) <==> IsMuted(s, a.room[x], x);
    assert IsBoss(s.rooms[c].members, a.boss[c]) && IsBoss(t.rooms[c].members, b.boss[c]);
  }

  /** `quit_chan` leaves the channel with an operator that is connected. */
  ghost predicate HeirConnected(s: State, id: Id, c: string, pick: Id) {
    var q := QuitChan(s, id, c, pick);
    && q.Gone? && c in q.state.rooms
    && exists o :: IsBoss(q.state.rooms[c].members, o) && o in q.state.peers && q.state.peers[o].connected
  }

  lemma HeirIsFirst(s: State, id: Id, c: string, pick: Id)
    requires Inv(s) && IsMember(s, c, id) && IsBoss(s.rooms[c].members, id) && (s.rooms[c].members - {id}).Keys != {}
    ensures First(s.rooms[c].members - {id}, pick) in s.peers
    ensures HeirConnected(s, id, c, pick) <==> s.peers[First(s.rooms[c].members - {id}, pick)].connected
  {
    var heir := First(s.rooms[c].members - {id}, pick);
    QuitEffect(s, id, c, id, pick);
    assert IsMember(s, c, heir);
    assert HasJoined(s, c, heir);
    assert IsBoss(QuitChan(s, id, c, pick).state.rooms[c].members, heir);
  }

  /** When an operator leaves members behind, its successor is connected, whichever member is
      picked, if and only if every other member is. */
  lemma HeirIsConnected(s: State, id: Id, c: string)
    requires Inv(s) && IsMember(s, c, id) && IsBoss(s.rooms[c].members, id) && (s.rooms[c].members - {id}).Keys != {}
    ensures (forall pick :: HeirConnected(s, id, c, pick))
            <==> forall x | IsMember(s, c, x) && x != id :: x in s.peers && s.peers[x].connected
  {
    var left := s.rooms[c].members - {id};
    forall pick {
      HeirIsFirst(s, id, c, pick);
    }
    forall x | IsMember(s, c, x) && x != id
      ensures HeirConnected(s, id, c, x) <==> x in s.peers && s.peers[x].connected
    {
      assert First(left, x) == x;
    }
    if forall x | IsMember(s, c, x) && x != id :: x in s.peers && s.peers[x].connected {
      forall pick
        ensures HeirConnected(s, id, c, pick)
      {
        assert IsMember(s, c, First(left, pick));
      }
    }
  }

  lemma VisitedOne(turns: seq<Turn>, t: Turn, left: set<Id>, all: set<Id>)
    requires all <= Visited(turns) + left
    ensures all <= Visited(turns + [t]) + (left - {t.id})
  {
    assert forall x :: x in turns + [t] <==> x in turns || x == t;
    assert Visited(turns + [t]) == Visited(turns) + {t.id};
  }

  predicate IsLeast(ids: set<Id>, id: Id) {
    id in ids && forall x | x in ids :: id <= x
  }

  lemma {:induction false} Least(ids: set<Id>)
    requires ids != {}
    ensures exists id :: IsLeast(ids, id)
  {
    var y :| y in ids;
    if ids == {y} {
      assert IsLeast(ids, y);
    } else {
      Least(ids - {y});
      var m :| IsLeast(ids - {y}, m);
      var id := if m < y then m else y;
      forall x | x in ids
        ensures id <= x
      {
        assert x == y || x in ids - {y};
      }
      assert IsLeast(ids, id);
    }
  }
}
