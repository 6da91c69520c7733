/** What every step of the server keeps, and how each step moves the small model. */
module Invariant {
  import opened Text
  import opened Message
  import opened ServerSpec
  import opened Rooms

  // ---------------------------------------------------------------- the invariant

  /** Nick, user name and real name are there exactly as the registration state says, and
      only a fully registered connection is in a channel. */
  predicate InfoOk(info: ConnInfo) {
    && (info.nick.Some? <==> info.state != Init)
    && (info.username.Some? <==> info.state == RegisteredUser)
    && (info.realname.Some? <==> info.state == RegisteredUser)
    && (info.joined.Some? ==> info.state == RegisteredUser)
    && (info.nick.Some? ==> |info.nick.value| <= 50)
  }

  ghost predicate NicksDistinct(infos: map<Id, ConnInfo>) {
    forall x, y | x in infos && y in infos && x != y && infos[x].nick.Some? :: infos[x].nick != infos[y].nick
  }

  ghost predicate RegistrationOk(s: State) {
    && s.infos.Keys == s.peers.Keys
    && (forall id | id in s.infos :: id < s.nextId && InfoOk(s.infos[id]))
    && NicksDistinct(s.infos)
  }

  predicate IsMember(s: State, c: string, id: Id) {
    c in s.rooms && id in s.rooms[c].members
  }

  predicate HasJoined(s: State, c: string, id: Id) {
    id in s.infos && s.infos[id].joined == Some(c)
  }

  /** The channel map is the index of `joined_channel`. */
  ghost predicate Agree(s: State) {
    forall c, id :: IsMember(s, c, id) <==> HasJoined(s, c, id)
  }

  predicate IsBoss(members: map<Id, Member>, o: Id) {
    o in members && forall x | x in members :: members[x].isOperator <==> x == o
  }

  ghost predicate OneOperator(members: map<Id, Member>) {
    exists o :: IsBoss(members, o)
  }

  ghost predicate RoomsValid(s: State) {
    forall c | c in s.rooms :: s.rooms[c].name == c && ChannelName(c) && OneOperator(s.rooms[c].members)
  }

  ghost predicate Inv(s: State) {
    RegistrationOk(s) && Agree(s) && RoomsValid(s)
  }

  // ---------------------------------------------------------------- the small model

  ghost predicate IsMuted(s: State, c: string, id: Id) {
    IsMember(s, c, id) && s.rooms[c].members[id].isMuted
  }

  /** `a` is what the small model sees of `s`. */
  ghost predicate Shows(s: State, a: Rooms) {
    && (forall c, id :: In(a, id, c) <==> HasJoined(s, c, id))
    && (forall c :: c in a.boss <==> c in s.rooms)
    && (forall c | c in s.rooms :: IsBoss(s.rooms[c].members, a.boss[c]))
    && (forall id :: id in a.muted <==> id in a.room && IsMuted(s, a.room[id], id))
  }

  ghost function Boss(members: map<Id, Member>): Id
    requires OneOperator(members)
  {
    var o :| IsBoss(members, o); o
  }

  ghost function Model(s: State): (a: Rooms)
    requires Inv(s)
    ensures Shows(s, a)
  {
    var room := map id | id in s.infos && s.infos[id].joined.Some? :: s.infos[id].joined.value;
    Rooms(room,
          map c | c in s.rooms :: Boss(s.rooms[c].members),
          set id | id in room && IsMuted(s, room[id], id))
  }

  lemma ShowsOne(s: State, a: Rooms, b: Rooms)
    requires Shows(s, a) && Shows(s, b)
    ensures a == b
  {
    forall id
      ensures id in a.room <==> id in b.room
      ensures id in a.room ==> a.room[id] == b.room[id]
    {
      if id in a.room {
        assert In(a, id, a.room[id]);
        assert In(b, id, a.room[id]);
      }
      if id in b.room {
        assert In(b, id, b.room[id]);
        assert In(a, id, b.room[id]);
      }
    }
    assert a.room == b.room;
    assert a.boss == b.boss by {
      forall c | c in s.rooms
        ensures a.boss[c] == b.boss[c]
      {
        assert IsBoss(s.rooms[c].members, a.boss[c]) && IsBoss(s.rooms[c].members, b.boss[c]);
      }
    }
  }

  lemma ModelOk(s: State, a: Rooms)
    requires Inv(s) && Shows(s, a)
    ensures RoomsOk(a)
  {
    forall c | c in a.boss
      ensures In(a, a.boss[c], c)
    {
      assert IsMember(s, c, a.boss[c]);
    }
    forall id | id in a.room
      ensures a.room[id] in a.boss
    {
      assert In(a, id, a.room[id]);
      assert IsMember(s, a.room[id], id);
    }
  }

  // ---------------------------------------------------------------- sending

  /** Only logs differ, and they only grow. */
  ghost predicate Quiet(s: State, t: State) {
    && t.rooms == s.rooms && t.infos == s.infos && t.nextId == s.nextId
    && Heard(s, t)
  }

  /** The same connections are open; their logs only grow. */
  ghost predicate Heard(s: State, t: State) {
    && t.peers.Keys == s.peers.Keys
    && forall id | id in s.peers :: t.peers[id].connected == s.peers[id].connected && s.peers[id].log <= t.peers[id].log
  }

  lemma QuietKeeps(s: State, t: State, a: Rooms)
    requires Inv(s) && Shows(s, a) && Quiet(s, t)
    ensures Inv(t) && Shows(t, a)
  {
    assert forall c, id :: IsMember(t, c, id) <==> IsMember(s, c, id);
    assert forall c, id :: HasJoined(t, c, id) <==> HasJoined(s, c, id);
  }

  // ---------------------------------------------------------------- leaving

  lemma PromotedMembers(members: map<Id, Member>, id: Id, o: Id, pick: Id)
    requires IsBoss(members, o) && id in members
    requires (members - {id}).Keys != {}
    ensures var left := members - {id};
            var after := Promoted(left, pick);
            && after.Keys == left.Keys
            && (forall x | x in left :: after[x].isMuted == left[x].isMuted)
            && (id != o ==> Heir(left, pick) == None && after == left && IsBoss(after, o))
            && (id == o ==> Heir(left, pick) == Some(First(left, pick)) && IsBoss(after, First(left, pick)))
  {
    var left := members - {id};
    if id != o {
      assert o in left && left[o].isOperator;
    }
  }

  lemma ShoutHeard(s: State, c: string, m: Message)
    requires c in s.rooms
    ensures Quiet(s, Broadcast(s, c, m))
  {
  }

  /** Who operates `c` once `id` has left it, when somebody stays. */
  ghost function NextBoss(s: State, c: string, id: Id, boss: Id, pick: Id): Id
    requires c in s.rooms
  {
    if boss == id then HeirOf(s, id, c, pick) else boss
  }

  /** `quit_chan` on a member: it succeeds, takes out that member alone, and leaves a room
      with one operator or no room. */
  lemma QuitEffect(s: State, id: Id, c: string, boss: Id, pick: Id)
    requires Inv(s) && IsMember(s, c, id) && IsBoss(s.rooms[c].members, boss)
    ensures var q := QuitChan(s, id, c, pick);
            && q.Gone? && q.state.infos == s.infos && q.state.nextId == s.nextId && Heard(s, q.state)
            && RoomLeft(s, q.state, c, id)
            && (c in q.state.rooms ==> IsBoss(q.state.rooms[c].members, NextBoss(s, c, id, boss, pick)))
  {
    var members := s.rooms[c].members;
    var left := members - {id};
    if left.Keys != {} {
      PromotedMembers(members, id, boss, pick);
      var t := s.(rooms := s.rooms[c := s.rooms[c].(members := Promoted(left, pick))]);
      if id == boss {
        var heir := First(left, pick);
        assert IsMember(s, c, heir);
        assert HasJoined(s, c, heir);
        ShoutHeard(t, c, System(c, s.infos[heir].nick.value + " promoted to operator"));
      }
    }
  }

  /** `t`'s rooms are those of `s` without member `id` of `c`. */
  ghost predicate RoomLeft(s: State, t: State, c: string, id: Id)
    requires c in s.rooms
  {
    var left := s.rooms[c].members - {id};
    && t.rooms.Keys == (if left.Keys == {} then s.rooms.Keys - {c} else s.rooms.Keys)
    && (forall d | d in t.rooms && d != c :: t.rooms[d] == s.rooms[d])
    && (c in t.rooms ==>
          && t.rooms[c].name == s.rooms[c].name
          && t.rooms[c].members.Keys == left.Keys
          && forall x | x in left :: t.rooms[c].members[x].isMuted == left[x].isMuted)
  }

  lemma LeftMembers(s: State, t: State, c: string, id: Id)
    requires Inv(s) && IsMember(s, c, id) && RoomLeft(s, t, c, id)
    ensures forall d, x :: IsMember(t, d, x) <==> IsMember(s, d, x) && x != id
    ensures forall d, x | x != id :: IsMuted(t, d, x) <==> IsMuted(s, d, x)
  {
    forall d, x
      ensures IsMember(t, d, x) <==> IsMember(s, d, x) && x != id
    {
      assert IsMember(s, d, id) ==> HasJoined(s, d, id);
      assert HasJoined(s, c, id);
      if d == c && IsMember(s, c, x) && x != id {
        assert x in s.rooms[c].members - {id};
      }
    }
  }

  lemma OthersAreMembers(s: State, a: Rooms, id: Id, c: string)
    requires Inv(s) && Shows(s, a) && IsMember(s, c, id)
    ensures HasOthers(a, id, c) <==> (s.rooms[c].members - {id}).Keys != {}
    ensures forall x | x in s.rooms[c].members - {id} :: In(a, x, c) && x != id
  {
    var left := s.rooms[c].members - {id};
    forall x | x in left
      ensures In(a, x, c) && x != id
    {
      assert IsMember(s, c, x);
      assert HasJoined(s, c, x);
    }
    if HasOthers(a, id, c) {
      var x :| x in a.room && a.room[x] == c && x != id;
      assert In(a, x, c);
      assert HasJoined(s, c, x);
      assert IsMember(s, c, x);
      assert x in left;
    }
    if left.Keys != {} {
      var x :| x in left.Keys;
      assert In(a, x, c);
    }
  }

  lemma DetachKeeps(s: State, q: State, c: string, id: Id)
    requires Inv(s) && IsMember(s, c, id) && RoomLeft(s, q, c, id)
    requires q.infos == s.infos && q.nextId == s.nextId && Heard(s, q)
    requires forall d, x :: IsMember(q, d, x) <==> IsMember(s, d, x) && x != id
    requires c in q.rooms ==> OneOperator(q.rooms[c].members)
    ensures id in q.infos && Inv(Detached(q, id))
    ensures forall d, x :: HasJoined(Detached(q, id), d, x) <==> HasJoined(s, d, x) && x != id
  {
    assert HasJoined(s, c, id);
    var t := Detached(q, id);
    assert forall d, x :: IsMember(t, d, x) <==> IsMember(q, d, x);
    assert forall d, x :: HasJoined(t, d, x) <==> HasJoined(s, d, x) && x != id;
    DetachRegistered(s, q, id);
    forall d | d in t.rooms
      ensures t.rooms[d].name == d && ChannelName(d) && OneOperator(t.rooms[d].members)
    {
      assert d in s.rooms && (d != c ==> t.rooms[d] == s.rooms[d]);
    }
  }

  lemma DetachRegistered(s: State, q: State, id: Id)
    requires RegistrationOk(s) && id in s.infos && q.infos == s.infos && q.nextId == s.nextId && Heard(s, q)
    ensures RegistrationOk(Detached(q, id))
  {
  }

  lemma LeaveShows(s: State, q: State, a: Rooms, act: Act, c: string)
    requires Inv(s) && Shows(s, a) && act.Leave? && IsMember(s, c, act.id) && In(a, act.id, c)
    requires act.id in q.infos && RoomLeft(s, q, c, act.id)
    requires forall d, x :: HasJoined(Detached(q, act.id), d, x) <==> HasJoined(s, d, x) && x != act.id
    requires c in q.rooms ==> IsBoss(q.rooms[c].members, if a.boss[c] == act.id then act.heir else a.boss[c])
    requires Allowed(a, act)
    ensures Shows(Detached(q, act.id), Do(a, act))
  {
    LeavePlaces(s, Detached(q, act.id), a, act);
    LeaveBosses(s, q, a, act, c);
    LeaveMutes(s, q, a, act.id, c);
  }

  lemma LeavePlaces(s: State, t: State, a: Rooms, act: Act)
    requires (forall d, x :: In(a, x, d) <==> HasJoined(s, d, x)) && act.Leave? && Allowed(a, act)
    requires forall d, x :: HasJoined(t, d, x) <==> HasJoined(s, d, x) && x != act.id
    ensures forall d, x :: In(Do(a, act), x, d) <==> HasJoined(t, d, x)
  {
    forall d, x
      ensures In(Do(a, act), x, d) <==> HasJoined(t, d, x)
    {
      assert In(a, x, d) <==> HasJoined(s, d, x);
    }
  }

  lemma LeaveBosses(s: State, q: State, a: Rooms, act: Act, c: string)
    requires Inv(s) && Shows(s, a) && act.Leave? && IsMember(s, c, act.id) && In(a, act.id, c)
    requires RoomLeft(s, q, c, act.id)
    requires c in q.rooms ==> IsBoss(q.rooms[c].members, if a.boss[c] == act.id then act.heir else a.boss[c])
    requires Allowed(a, act)
    ensures forall d :: d in Do(a, act).boss <==> d in q.rooms
    ensures forall d | d in q.rooms :: IsBoss(q.rooms[d].members, Do(a, act).boss[d])
  {
    OthersAreMembers(s, a, act.id, c);
  }

  lemma LeaveMutes(s: State, q: State, a: Rooms, id: Id, c: string)
    requires Inv(s) && Shows(s, a) && IsMember(s, c, id) && RoomLeft(s, q, c, id) && id in q.infos
    ensures forall x | x != id && x in a.room :: x in a.muted <==> IsMuted(Detached(q, id), a.room[x], x)
    ensures id !in a.muted - {id}
  {
    LeftMembers(s, q, c, id);
    forall x | x != id && x in a.room
      ensures x in a.muted <==> IsMuted(Detached(q, id), a.room[x], x)
    {
      assert IsMuted(Detached(q, id), a.room[x], x) <==> IsMuted(q, a.room[x], x);
    }
  }

  lemma LeaveAllowed(s: State, a: Rooms, actor: Id, id: Id, c: string, pick: Id)
    requires Inv(s) && Shows(s, a) && IsMember(s, c, id) && In(a, id, c)
    requires actor == id || actor == a.boss[c]
    ensures Allowed(a, Leave(actor, id, HeirOf(s, id, c, pick)))
  {
    OthersAreMembers(s, a, id, c);
  }

  /** Leaving a room, for whatever reason: `quit_chan` and its caller's clearing of
      `joined_channel` keep the invariant and take one step of the small model. */
  lemma LeaveKeeps(s: State, a: Rooms, actor: Id, id: Id, c: string, pick: Id)
    requires Inv(s) && Shows(s, a) && In(a, id, c)
    requires c in a.boss && (actor == id || actor == a.boss[c])
    ensures IsMember(s, c, id) && QuitChan(s, id, c, pick).Gone?
    ensures var q, act := QuitChan(s, id, c, pick).state, Leave(actor, id, HeirOf(s, id, c, pick));
            && id in q.infos && q.infos == s.infos && q.nextId == s.nextId && Heard(s, q)
            && Inv(Detached(q, id))
            && Allowed(a, act) && Shows(Detached(q, id), Do(a, act))
  {
    assert HasJoined(s, c, id);
    assert IsMember(s, c, id);
    QuitEffect(s, id, c, a.boss[c], pick);
    var q := QuitChan(s, id, c, pick).state;
    LeftMembers(s, q, c, id);
    DetachKeeps(s, q, c, id);
    LeaveAllowed(s, a, actor, id, c, pick);
    LeaveShows(s, q, a, Leave(actor, id, HeirOf(s, id, c, pick)), c);
  }

  // ---------------------------------------------------------------- the other moves

  lemma EnterInv(s: State, id: Id, c: string)
    requires Inv(s) && id in s.infos && s.infos[id].joined.None? && s.infos[id].state == RegisteredUser
    requires ChannelName(c)
    requires c in s.rooms ==> id !in s.rooms[c].members
    ensures Inv(JoinChan(s, id, c)) && IsMember(JoinChan(s, id, c), c, id)
  {
    var t := JoinChan(s, id, c);
    EnteredMembers(s, t, id, c);
    forall d | d in t.rooms
      ensures t.rooms[d].name == d && ChannelName(d) && OneOperator(t.rooms[d].members)
    {
      if d != c {
        assert d in s.rooms && t.rooms[d] == s.rooms[d];
      } else if c in s.rooms {
        var o :| IsBoss(s.rooms[c].members, o);
        assert IsBoss(t.rooms[c].members, o);
      } else {
        assert IsBoss(t.rooms[c].members, id);
      }
    }
  }

  lemma EnterKeeps(s: State, a: Rooms, id: Id, c: string)
    requires Inv(s) && Shows(s, a)
    requires id in s.infos && s.infos[id].joined.None? && s.infos[id].state == RegisteredUser && ChannelName(c)
    ensures var t := JoinChan(s, id, c);
            && Inv(t) && IsMember(t, c, id) && t.infos[id].nick == s.infos[id].nick
            && Allowed(a, Enter(id, c)) && Shows(t, Do(a, Enter(id, c)))
  {
    assert !HasJoined(s, c, id);
    assert !IsMember(s, c, id);
    EnterInv(s, id, c);
    EnterAllowed(s, a, id);
    EnterPlaces(s, a, id, c);
    EnterBosses(s, JoinChan(s, id, c), a, id, c);
  }

  lemma EnterAllowed(s: State, a: Rooms, id: Id)
    requires Shows(s, a) && id in s.infos && s.infos[id].joined.None?
    ensures id !in a.room
  {
    assert forall c :: In(a, id, c) ==> HasJoined(s, c, id);
    assert id in a.room ==> In(a, id, a.room[id]);
  }

  lemma EnterPlaces(s: State, a: Rooms, id: Id, c: string)
    requires Inv(s) && Shows(s, a) && !IsMember(s, c, id) && id !in a.room
    requires id in s.infos && s.infos[id].joined.None?
    ensures var t, b := JoinChan(s, id, c), Do(a, Enter(id, c));
            && (forall d, x :: In(b, x, d) <==> HasJoined(t, d, x))
            && (forall x :: x in b.muted <==> x in b.room && IsMuted(t, b.room[x], x))
  {
    var t, b := JoinChan(s, id, c), Do(a, Enter(id, c));
    EnteredMembers(s, t, id, c);
    forall d, x
      ensures In(b, x, d) <==> HasJoined(t, d, x)
    {
      assert In(a, x, d) <==> HasJoined(s, d, x);
    }
    forall x
      ensures x in b.muted <==> x in b.room && IsMuted(t, b.room[x], x)
    {
      if x in b.room {
        assert IsMuted(t, b.room[x], x) <==> IsMuted(s, b.room[x], x);
      }
    }
  }

  lemma EnterBosses(s: State, t: State, a: Rooms, id: Id, c: string)
    requires Inv(s) && Shows(s, a) && !IsMember(s, c, id)
    requires id in s.infos && t == JoinChan(s, id, c) && id !in a.room
    ensures var b := Do(a, Enter(id, c));
            forall d | d in t.rooms :: d in b.boss && IsBoss(t.rooms[d].members, b.boss[d])
  {
    forall d | d in t.rooms
      ensures d in Do(a, Enter(id, c)).boss && IsBoss(t.rooms[d].members, Do(a, Enter(id, c)).boss[d])
    {
      if d in s.rooms {
        assert IsBoss(s.rooms[d].members, a.boss[d]);
      }
    }
  }

  lemma EnteredMembers(s: State, t: State, id: Id, c: string)
    requires Inv(s) && id in s.infos && s.infos[id].joined.None? && t == JoinChan(s, id, c)
    requires !IsMember(s, c, id)
    ensures forall d, x :: IsMember(t, d, x) <==> IsMember(s, d, x) || (d == c && x == id)
    ensures forall d, x :: HasJoined(t, d, x) <==> HasJoined(s, d, x) || (d == c && x == id)
    ensures forall d, x :: IsMuted(t, d, x) <==> IsMuted(s, d, x)
  {
    assert c in s.rooms ==> s.rooms[c].name == c;
  }

  lemma MuteKeeps(s: State, a: Rooms, actor: Id, id: Id, c: string, muted: bool)
    requires Inv(s) && Shows(s, a) && IsMember(s, c, id) && IsMember(s, c, actor)
    requires s.rooms[c].members[actor].isOperator
    ensures var t, act := SetMember(s, c, id, s.rooms[c].members[id].(isMuted := muted)), SetMute(actor, id, muted);
            Inv(t) && Allowed(a, act) && Shows(t, Do(a, act))
  {
    assert HasJoined(s, c, id);
    assert In(a, id, c);
    assert IsBoss(s.rooms[c].members, a.boss[c]);
    MuteInv(s, id, c, muted, a.boss[c]);
    MuteShows(s, a, SetMute(actor, id, muted), c);
  }

  lemma MuteInv(s: State, id: Id, c: string, muted: bool, boss: Id)
    requires Inv(s) && IsMember(s, c, id) && IsBoss(s.rooms[c].members, boss)
    ensures Inv(SetMember(s, c, id, s.rooms[c].members[id].(isMuted := muted)))
  {
    var t := SetMember(s, c, id, s.rooms[c].members[id].(isMuted := muted));
    assert IsBoss(t.rooms[c].members, boss);
    assert forall d, x :: IsMember(t, d, x) <==> IsMember(s, d, x);
    assert forall d, x :: HasJoined(t, d, x) <==> HasJoined(s, d, x);
  }

  lemma MuteShows(s: State, a: Rooms, act: Act, c: string)
    requires Shows(s, a) && act.SetMute? && IsMember(s, c, act.id) && In(a, act.id, c) && Allowed(a, act)
    ensures Shows(SetMember(s, c, act.id, s.rooms[c].members[act.id].(isMuted := act.muted)), Do(a, act))
  {
    var t := SetMember(s, c, act.id, s.rooms[c].members[act.id].(isMuted := act.muted));
    MuteBosses(s, t, a, act.id, c);
    MuteFlags(s, t, a, act, c);
    assert forall d, x :: HasJoined(t, d, x) <==> HasJoined(s, d, x);
  }

  lemma MuteBosses(s: State, t: State, a: Rooms, id: Id, c: string)
    requires (forall d | d in s.rooms :: d in a.boss && IsBoss(s.rooms[d].members, a.boss[d])) && IsMember(s, c, id)
    requires exists muted :: t == SetMember(s, c, id, s.rooms[c].members[id].(isMuted := muted))
    ensures forall d | d in t.rooms :: d in a.boss && IsBoss(t.rooms[d].members, a.boss[d])
  {
  }

  lemma MuteFlags(s: State, t: State, a: Rooms, act: Act, c: string)
    requires (forall x :: x in a.muted <==> x in a.room && IsMuted(s, a.room[x], x)) && act.SetMute? && Allowed(a, act)
    requires IsMember(s, c, act.id) && In(a, act.id, c)
    requires t == SetMember(s, c, act.id, s.rooms[c].members[act.id].(isMuted := act.muted))
    ensures forall x :: x in Do(a, act).muted <==> x in a.room && IsMuted(t, a.room[x], x)
  {
    assert forall d, x | x != act.id :: IsMuted(t, d, x) <==> IsMuted(s, d, x);
    assert IsMuted(t, c, act.id) <==> act.muted;
  }

  /** A change of registration data that leaves the rooms alone. */
  lemma InfoKeeps(s: State, a: Rooms, id: Id, info: ConnInfo)
    requires Inv(s) && Shows(s, a) && id in s.infos
    requires InfoOk(info) && info.joined == s.infos[id].joined
    requires info.nick.Some? ==> forall x | x in s.infos && x != id :: s.infos[x].nick != info.nick
    ensures Inv(SetInfo(s, id, info)) && Shows(SetInfo(s, id, info), a)
  {
    var t := SetInfo(s, id, info);
    assert forall d, x :: IsMember(t, d, x) <==> IsMember(s, d, x);
    assert forall d, x :: HasJoined(t, d, x) <==> HasJoined(s, d, x);
    assert forall d, x :: IsMuted(t, d, x) <==> IsMuted(s, d, x);
  }

  lemma HungUpKeeps(s: State, a: Rooms, id: Id)
    requires Inv(s) && Shows(s, a) && id in s.peers
    ensures Inv(HungUp(s, id)) && Shows(HungUp(s, id), a)
  {
    var t := HungUp(s, id);
    assert forall d, x :: IsMember(t, d, x) <==> IsMember(s, d, x);
    assert forall d, x :: HasJoined(t, d, x) <==> HasJoined(s, d, x);
    assert forall d, x :: IsMuted(t, d, x) <==> IsMuted(s, d, x);
  }

  lemma AdmittedKeeps(s: State, a: Rooms, ipv4: nat)
    requires Inv(s) && Shows(s, a)
    ensures Inv(Admitted(s, ipv4)) && Shows(Admitted(s, ipv4), a)
  {
    var t := Admitted(s, ipv4);
    assert forall d, x :: IsMember(t, d, x) <==> IsMember(s, d, x);
    assert forall d, x :: HasJoined(t, d, x) <==> HasJoined(s, d, x);
    assert forall d, x :: IsMuted(t, d, x) <==> IsMuted(s, d, x);
  }

  lemma RemovedKeeps(s: State, a: Rooms, id: Id)
    requires Inv(s) && Shows(s, a) && id in s.infos && s.infos[id].joined.None?
    ensures Inv(Removed(s, id)) && Shows(Removed(s, id), a)
  {
    var t := Removed(s, id);
    assert forall d, x :: IsMember(t, d, x) <==> IsMember(s, d, x);
    assert forall d, x :: HasJoined(t, d, x) <==> HasJoined(s, d, x);
    assert forall d, x :: IsMuted(t, d, x) <==> IsMuted(s, d, x);
  }

  // ---------------------------------------------------------------- every step

  ghost predicate Follows(s: State, a: Rooms, o: Outcome) {
    && o.Ok? && Inv(o.state) && AllAllowed(a, o.acts) && Shows(o.state, DoAll(a, o.acts))
  }

  lemma JoinedIn(s: State, a: Rooms, id: Id)
    requires Inv(s) && Shows(s, a) && id in s.infos && s.infos[id].joined.Some?
    ensures In(a, id, s.infos[id].joined.value) && s.infos[id].joined.value in a.boss
    ensures IsMember(s, s.infos[id].joined.value, id)
    ensures s.infos[id].nick.Some? && s.infos[id].state == RegisteredUser
  {
    assert HasJoined(s, s.infos[id].joined.value, id);
    assert IsMember(s, s.infos[id].joined.value, id);
  }

  lemma ReplyFollows(s: State, a: Rooms, id: Id, m: Message)
    requires Inv(s) && Shows(s, a) && id in s.peers
    ensures Follows(s, a, Ok(Reply(s, id, m), []))
  {
    QuietKeeps(s, Reply(s, id, m), a);
  }

  lemma BroadcastFollows(s: State, a: Rooms, c: string, m: Message)
    requires Inv(s) && Shows(s, a) && c in s.rooms
    ensures Inv(Broadcast(s, c, m)) && Shows(Broadcast(s, c, m), a)
  {
    ShoutHeard(s, c, m);
    QuietKeeps(s, Broadcast(s, c, m), a);
  }

  lemma NickFollows(s: State, a: Rooms, id: Id, ps: seq<string>)
    requires Inv(s) && Shows(s, a) && id in s.infos
    ensures Follows(s, a, HandleNick(s, id, ps))
  {
    forall m {
      ReplyFollows(s, a, id, m);
    }
    if |ps| >= 1 && |ps[0]| <= 50 && !NickUsed(s.infos, ps[0]) {
      var info := s.infos[id];
      var state := if info.state == Init then RegisteredNick else info.state;
      InfoKeeps(s, a, id, info.(nick := Some(ps[0]), state := state));
    }
  }

  lemma UserFollows(s: State, a: Rooms, id: Id, ps: seq<string>)
    requires Inv(s) && Shows(s, a) && id in s.infos && s.infos[id].state != Init
    ensures Follows(s, a, HandleUser(s, id, ps))
  {
    forall m {
      ReplyFollows(s, a, id, m);
    }
    if |ps| >= 4 && s.infos[id].state != RegisteredUser {
      InfoKeeps(s, a, id, s.infos[id].(username := Some(ps[0]), realname := Some(ps[3]), state := RegisteredUser));
    }
  }

  lemma JoinFollows(s: State, a: Rooms, id: Id, ps: seq<string>, pick: Id)
    requires Inv(s) && Shows(s, a) && id in s.infos && s.infos[id].state == RegisteredUser
    ensures Follows(s, a, HandleJoin(s, id, ps, pick))
  {
    if |ps| < 1 || !ChannelName(ps[0]) {
      ReplyFollows(s, a, id, if |ps| < 1 then NeedMoreParams(Join) else NO_SUCH_CHANNEL);
    } else if s.infos[id].joined.None? {
      FirstFollows(s, a, id, ps[0], pick);
    } else {
      NextFollows(s, a, id, s.infos[id].joined.value, ps[0], pick);
    }
  }

  /** `JOIN` from no channel. */
  lemma FirstFollows(s: State, a: Rooms, id: Id, c: string, pick: Id)
    requires Inv(s) && Shows(s, a) && id in s.infos && s.infos[id].joined.None?
    requires s.infos[id].state == RegisteredUser && ChannelName(c)
    ensures Follows(s, a, Moved(s, id, c, pick))
  {
    JoinAnnounced(s, a, id, c);
    MovedFirst(s, id, c, pick);
    DoOne(a, Enter(id, c));
  }

  lemma MovedFirst(s: State, id: Id, c: string, pick: Id)
    requires id in s.infos && id in s.peers && s.infos[id].joined.None? && s.infos[id].nick.Some?
    ensures Moved(s, id, c, pick) == Ok(Entered(s, id, c), [Enter(id, c)])
  {
    assert [] + [Enter(id, c)] == [Enter(id, c)];
  }

  /** `JOIN` from a channel, the same one included. */
  lemma NextFollows(s: State, a: Rooms, id: Id, c: string, d: string, pick: Id)
    requires Inv(s) && Shows(s, a) && id in s.infos && s.infos[id].joined == Some(c) && ChannelName(d)
    ensures Follows(s, a, Moved(s, id, d, pick))
  {
    MoveFollows(s, a, id, c, d, pick);
    MovedAs(s, id, c, d, pick);
  }

  lemma MovedAs(s: State, id: Id, c: string, d: string, pick: Id)
    requires id in s.infos && id in s.peers && s.infos[id].joined == Some(c) && s.infos[id].nick.Some? && c in s.rooms
    requires QuitChan(s, id, c, pick).Gone? && QuitChan(s, id, c, pick).state.infos == s.infos
    ensures Moved(s, id, d, pick)
            == Ok(Entered(QuitChan(s, id, c, pick).state, id, d), [Leave(id, id, HeirOf(s, id, c, pick)), Enter(id, d)])
  {
    var leave := Leave(id, id, HeirOf(s, id, c, pick));
    assert [leave] + [Enter(id, d)] == [leave, Enter(id, d)];
  }

  lemma MoveFollows(s: State, a: Rooms, id: Id, c: string, d: string, pick: Id)
    requires Inv(s) && Shows(s, a) && id in s.infos && s.infos[id].joined == Some(c) && ChannelName(d)
    ensures s.infos[id].nick.Some?
    ensures c in s.rooms && QuitChan(s, id, c, pick).Gone? && QuitChan(s, id, c, pick).state.infos == s.infos
    ensures var t := JoinChan(QuitChan(s, id, c, pick).state, id, d);
            && IsMember(t, d, id) && id in t.infos && t.infos[id].nick == s.infos[id].nick
            && Follows(s, a, Ok(Broadcast(t, d, JoinMessage(t, id, d)),
                                [Leave(id, id, HeirOf(s, id, c, pick)), Enter(id, d)]))
  {
    JoinedIn(s, a, id);
    LeaveKeeps(s, a, id, id, c, pick);
    var q, act := QuitChan(s, id, c, pick).state, Leave(id, id, HeirOf(s, id, c, pick));
    JoinAnnounced(Detached(q, id), Do(a, act), id, d);
    RejoinSame(q, id, d);
    var t := JoinChan(q, id, d);
    FollowsTwo(s, a, act, Enter(id, d), Broadcast(t, d, JoinMessage(t, id, d)));
  }

  lemma RejoinSame(s: State, id: Id, c: string)
    requires id in s.infos
    ensures JoinChan(s, id, c) == JoinChan(Detached(s, id), id, c)
  {
    assert Detached(s, id).infos[id].(joined := None) == s.infos[id].(joined := None);
    forall o
      ensures Detached(s, id).infos[id := Detached(s, id).infos[id].(joined := o)]
              == s.infos[id := s.infos[id].(joined := o)]
    {
    }
  }

  lemma FollowsTwo(s: State, a: Rooms, x: Act, y: Act, t: State)
    requires Allowed(a, x) && Allowed(Do(a, x), y) && Inv(t) && Shows(t, Do(Do(a, x), y))
    ensures Follows(s, a, Ok(t, [x, y]))
  {
    DoTwo(a, x, y);
  }

  lemma FollowsOne(s: State, a: Rooms, x: Act, t: State)
    requires Allowed(a, x) && Inv(t) && Shows(t, Do(a, x))
    ensures Follows(s, a, Ok(t, [x]))
  {
    DoOne(a, x);
  }

  lemma DoTwo(a: Rooms, x: Act, y: Act)
    requires Allowed(a, x) && Allowed(Do(a, x), y)
    ensures AllAllowed(a, [x, y]) && DoAll(a, [x, y]) == Do(Do(a, x), y)
  {
    DoOne(a, x);
    DoOne(Do(a, x), y);
    assert [x, y][1..] == [y];
  }

  lemma DoOne(a: Rooms, x: Act)
    requires Allowed(a, x)
    ensures AllAllowed(a, [x]) && DoAll(a, [x]) == Do(a, x)
  {
    assert [x][1..] == [];
  }

  lemma JoinAnnounced(s: State, a: Rooms, id: Id, c: string)
    requires Inv(s) && Shows(s, a) && id in s.infos && s.infos[id].joined.None? && s.infos[id].state == RegisteredUser
    requires ChannelName(c)
    ensures s.infos[id].nick.Some?
    ensures var t := JoinChan(s, id, c);
            && IsMember(t, c, id) && t.infos[id].nick == s.infos[id].nick && Allowed(a, Enter(id, c))
            && Inv(Broadcast(t, c, JoinMessage(t, id, c)))
            && Shows(Broadcast(t, c, JoinMessage(t, id, c)), Do(a, Enter(id, c)))
  {
    EnterKeeps(s, a, id, c);
    var t := JoinChan(s, id, c);
    BroadcastFollows(t, Do(a, Enter(id, c)), c, JoinMessage(t, id, c));
  }

  /** The named channel exists and the sender is not in it. */
  predicate Outside(s: State, id: Id, param: string)
    requires id in s.infos
  {
    var name := GetChanName(param, s.infos[id]);
    name.Some? && name.value in s.rooms && s.infos[id].joined != name
  }

  lemma OutsideMembers(s: State, id: Id, param: string)
    requires Inv(s) && id in s.infos
    ensures var name := GetChanName(param, s.infos[id]);
            name.Some? && name.value in s.rooms ==> (Outside(s, id, param) <==> id !in s.rooms[name.value].members)
  {
    var name := GetChanName(param, s.infos[id]);
    if name.Some? {
      assert IsMember(s, name.value, id) <==> HasJoined(s, name.value, id);
    }
  }

  /** An operator sets or clears `v` for a known nick that is not in its channel. */
  ghost predicate ModesOutsider(s: State, id: Id, ps: seq<string>)
    requires id in s.infos && |ps| >= 3
  {
    var name := GetChanName(ps[0], s.infos[id]);
    && name.Some? && IsMember(s, name.value, id) && s.rooms[name.value].members[id].isOperator
    && (Occurs("+v", ps[1]) || Occurs("-v", ps[1]))
    && exists t :: t in s.infos && s.infos[t].nick == Some(ps[2]) && s.infos[t].joined != name
  }

  /** With distinct nicks the search does not depend on the order of the hash table. */
  lemma NickIsFound(infos: map<Id, ConnInfo>, nick: string, id: Id)
    requires NicksDistinct(infos) && id in infos && infos[id].nick == Some(nick)
    ensures FindNick(infos, nick) == Some(id)
  {
    assert NickUsed(infos, nick);
  }

  lemma FoundNick(s: State, nick: string, id: Id)
    requires Inv(s) && id in s.infos && s.infos[id].nick == Some(nick)
    ensures FindNick(s.infos, nick) == Some(id)
  {
    NickIsFound(s.infos, nick, id);
  }

  lemma ModeFollows(s: State, a: Rooms, id: Id, ps: seq<string>)
    requires Inv(s) && Shows(s, a) && id in s.infos
    ensures HandleMode(s, id, ps).Ok? <==> (|ps| >= 3 ==> !Outside(s, id, ps[0]) && !ModesOutsider(s, id, ps))
    ensures HandleMode(s, id, ps).Ok? ==> Follows(s, a, HandleMode(s, id, ps))
  {
    forall m {
      ReplyFollows(s, a, id, m);
    }
    if |ps| >= 3 {
      var name, target := GetChanName(ps[0], s.infos[id]), FindNick(s.infos, ps[2]);
      OutsideMembers(s, id, ps[0]);
      if name.Some? && IsMember(s, name.value, id) && target.Some? {
        forall t | t in s.infos && s.infos[t].nick == Some(ps[2]) {
          FoundNick(s, ps[2], t);
        }
        assert IsMember(s, name.value, target.value) <==> HasJoined(s, name.value, target.value);
        if IsMember(s, name.value, target.value) && s.rooms[name.value].members[id].isOperator {
          MuteFollows(s, a, id, target.value, name.value, !Occurs("+v", ps[1]));
        }
      }
    }
  }

  lemma MuteFollows(s: State, a: Rooms, actor: Id, id: Id, c: string, muted: bool)
    requires Inv(s) && Shows(s, a) && IsMember(s, c, id) && IsMember(s, c, actor)
    requires s.rooms[c].members[actor].isOperator
    ensures var t := SetMember(s, c, id, s.rooms[c].members[id].(isMuted := muted));
            Follows(s, a, Ok(t, [SetMute(actor, id, muted)]))
  {
    MuteKeeps(s, a, actor, id, c, muted);
    FollowsOne(s, a, SetMute(actor, id, muted), SetMember(s, c, id, s.rooms[c].members[id].(isMuted := muted)));
  }

  lemma WhoisFollows(s: State, a: Rooms, id: Id, ps: seq<string>)
    requires Inv(s) && Shows(s, a) && id in s.infos
    ensures Follows(s, a, HandleWhois(s, id, ps))
  {
    forall m {
      ReplyFollows(s, a, id, m);
    }
    if s.infos[id].joined.Some? {
      JoinedIn(s, a, id);
    }
  }

  lemma PrivmsgFollows(s: State, a: Rooms, id: Id, ps: seq<string>)
    requires Inv(s) && Shows(s, a) && id in s.infos && s.infos[id].state == RegisteredUser
    ensures HandlePrivmsg(s, id, ps).Ok? <==> (|ps| >= 2 ==> !Outside(s, id, ps[0]))
    ensures HandlePrivmsg(s, id, ps).Ok? ==> Follows(s, a, HandlePrivmsg(s, id, ps))
  {
    forall m {
      ReplyFollows(s, a, id, m);
    }
    if |ps| >= 2 {
      var name := GetChanName(ps[0], s.infos[id]);
      OutsideMembers(s, id, ps[0]);
      if name.Some? && name.value in s.rooms {
        BroadcastFollows(s, a, name.value, PrivateMessage(s.infos[id].nick.value, [name.value, ps[|ps| - 1]]));
      }
    }
  }

  lemma QuitFollows(s: State, a: Rooms, id: Id, ps: seq<string>, pick: Id)
    requires Inv(s) && Shows(s, a) && id in s.infos && s.infos[id].state == RegisteredUser
    ensures HandleQuit(s, id, ps, pick).Ok? <==> |ps| != 1
    ensures HandleQuit(s, id, ps, pick).Ok? ==> Follows(s, a, HandleQuit(s, id, ps, pick))
  {
    if |ps| != 1 {
      var nick := s.infos[id].nick.value;
      if s.infos[id].joined.None? {
        HungUpKeeps(s, a, id);
      } else {
        var c := s.infos[id].joined.value;
        JoinedIn(s, a, id);
        DepartureFollows(s, a, id, c, PrivateMessage(nick, [if |ps| == 0 then nick + " quit" else ps[1]]), pick);
      }
    }
  }

  lemma DepartureFollows(s: State, a: Rooms, id: Id, c: string, m: Message, pick: Id)
    requires Inv(s) && Shows(s, a) && id in s.infos && s.infos[id].joined == Some(c)
    ensures c in s.rooms && Farewell(s, id, c, m, pick).Ok?
    ensures var o := Farewell(s, id, c, m, pick);
            Follows(s, a, Ok(HungUp(Detached(o.state, id), id), o.acts))
  {
    GoodbyeFollows(s, a, id, c, m, pick);
    var q, act := Farewell(s, id, c, m, pick).state, Leave(id, id, HeirOf(s, id, c, pick));
    HungUpKeeps(Detached(q, id), Do(a, act), id);
    FollowsOne(s, a, act, HungUp(Detached(q, id), id));
  }

  /** A farewell to the channel, then `quit_chan`: how `QUIT` and the clearing loop leave. */
  lemma GoodbyeFollows(s: State, a: Rooms, id: Id, c: string, m: Message, pick: Id)
    requires Inv(s) && Shows(s, a) && id in s.infos && s.infos[id].joined == Some(c)
    ensures c in s.rooms && QuitChan(Broadcast(s, c, m), id, c, pick).Gone?
    ensures var q, act := QuitChan(Broadcast(s, c, m), id, c, pick).state, Leave(id, id, HeirOf(s, id, c, pick));
            && Farewell(s, id, c, m, pick) == Ok(q, [act])
            && id in q.infos && id in q.peers && Heard(s, q) && q.infos == s.infos
            && Inv(Detached(q, id))
            && Allowed(a, act) && Shows(Detached(q, id), Do(a, act))
  {
    JoinedIn(s, a, id);
    var t := Broadcast(s, c, m);
    ShoutHeard(s, c, m);
    QuietKeeps(s, t, a);
    LeaveKeeps(t, a, id, id, c, pick);
    HeardTwice(s, t, QuitChan(t, id, c, pick).state);
  }

  lemma HeardTwice(s: State, t: State, u: State)
    requires Heard(s, t) && Heard(t, u)
    ensures Heard(s, u)
  {
  }

  lemma KickFollows(s: State, a: Rooms, id: Id, ps: seq<string>, pick: Id)
    requires Inv(s) && Shows(s, a) && id in s.infos
    ensures HandleKick(s, id, ps, pick).Ok? <==> (|ps| >= 2 ==> !Outside(s, id, ps[0]))
    ensures HandleKick(s, id, ps, pick).Ok? ==> Follows(s, a, HandleKick(s, id, ps, pick))
  {
    forall m {
      ReplyFollows(s, a, id, m);
    }
    if |ps| >= 2 {
      var name, kicked := GetChanName(ps[0], s.infos[id]), FindNick(s.infos, ps[1]);
      OutsideMembers(s, id, ps[0]);
      if name.Some? && IsMember(s, name.value, id) && s.rooms[name.value].members[id].isOperator && kicked.Some? {
        if IsMember(s, name.value, kicked.value) {
          RemovalFollows(s, a, id, kicked.value, name.value, pick);
        }
      }
    }
  }

  lemma RemovalFollows(s: State, a: Rooms, actor: Id, id: Id, c: string, pick: Id)
    requires Inv(s) && Shows(s, a) && IsMember(s, c, id) && IsMember(s, c, actor)
    requires s.rooms[c].members[actor].isOperator
    ensures QuitChan(s, id, c, pick).Gone? && id in QuitChan(s, id, c, pick).state.infos
    ensures Follows(s, a, Ok(Detached(QuitChan(s, id, c, pick).state, id), [Leave(actor, id, HeirOf(s, id, c, pick))]))
  {
    assert HasJoined(s, c, id);
    assert In(a, id, c);
    assert IsBoss(s.rooms[c].members, a.boss[c]);
    LeaveKeeps(s, a, actor, id, c, pick);
    FollowsOne(s, a, Leave(actor, id, HeirOf(s, id, c, pick)), Detached(QuitChan(s, id, c, pick).state, id));
  }

  // ---------------------------------------------------------------- handler completion

  /** What can be checked before the message is handled. */
  ghost predicate Completes(s: State, id: Id, text: string)
    requires id in s.infos
  {
    match Decode(text)
    case ParseError => true
    case OutOfRange => false
    case Parsed(m) =>
      m.verb.Cmd? && (Expected(s.infos[id].state, m.verb.cmd) ==>
        match m.verb.cmd
        case Mode => |m.params| >= 3 ==> !Outside(s, id, m.params[0]) && !ModesOutsider(s, id, m.params)
        case Privmsg => |m.params| >= 2 ==> !Outside(s, id, m.params[0])
        case Kick => |m.params| >= 2 ==> !Outside(s, id, m.params[0])
        case Quit => |m.params| != 1
        case _ => true)
  }

  lemma CommandFollows(s: State, a: Rooms, id: Id, cmd: Command, ps: seq<string>, pick: Id)
    requires Inv(s) && Shows(s, a) && id in s.infos && Expected(s.infos[id].state, cmd)
    ensures HandleCommand(s, id, cmd, ps, pick).Ok? <==>
              match cmd
              case Mode => |ps| >= 3 ==> !Outside(s, id, ps[0]) && !ModesOutsider(s, id, ps)
              case Privmsg => |ps| >= 2 ==> !Outside(s, id, ps[0])
              case Kick => |ps| >= 2 ==> !Outside(s, id, ps[0])
              case Quit => |ps| != 1
              case _ => true
    ensures HandleCommand(s, id, cmd, ps, pick).Ok? ==> Follows(s, a, HandleCommand(s, id, cmd, ps, pick))
  {
    match cmd
    case Pong =>
    case Nick => NickFollows(s, a, id, ps);
    case User => UserFollows(s, a, id, ps);
    case Ping => ReplyFollows(s, a, id, PONG);
    case Join => JoinFollows(s, a, id, ps, pick);
    case Mode => ModeFollows(s, a, id, ps);
    case Whois => WhoisFollows(s, a, id, ps);
    case Privmsg => PrivmsgFollows(s, a, id, ps);
    case Quit => QuitFollows(s, a, id, ps, pick);
    case Kick => KickFollows(s, a, id, ps, pick);
  }

  /** A message is handled without an exception exactly when it completes. */
  lemma HandlerCompletes(s: State, id: Id, text: string, pick: Id)
    requires Inv(s) && id in s.infos
    ensures HandleMessage(s, id, text, pick).Ok? <==> Completes(s, id, text)
  {
    if Decode(text).Parsed? && Decode(text).msg.verb.Cmd? {
      var m := Decode(text).msg;
      if Expected(s.infos[id].state, m.verb.cmd) {
        CommandFollows(s, Model(s), id, m.verb.cmd, m.params, pick);
      }
    }
  }

  // ---------------------------------------------------------------- the theorems

  lemma ReapFollows(s: State, a: Rooms, id: Id, pick: Id)
    requires Inv(s) && Shows(s, a) && id in s.peers
    ensures Follows(s, a, Reap(s, id, pick))
  {
    if !s.peers[id].connected {
      if s.infos[id].joined.None? {
        RemovedKeeps(s, a, id);
      } else {
        JoinedIn(s, a, id);
        var c, nick := s.infos[id].joined.value, s.infos[id].nick.value;
        ClearedFollows(s, a, id, c, ClearingMessage(c, nick), pick);
      }
    }
  }

  lemma ClearedFollows(s: State, a: Rooms, id: Id, c: string, m: Message, pick: Id)
    requires Inv(s) && Shows(s, a) && id in s.infos && s.infos[id].joined == Some(c)
    ensures c in s.rooms && Farewell(s, id, c, m, pick).Ok?
    ensures var o := Farewell(s, id, c, m, pick);
            Follows(s, a, Ok(Removed(o.state, id), o.acts))
  {
    GoodbyeFollows(s, a, id, c, m, pick);
    ErasedFollows(s, a, Leave(id, id, HeirOf(s, id, c, pick)), Farewell(s, id, c, m, pick).state, id);
  }

  lemma ErasedFollows(s: State, a: Rooms, act: Act, q: State, id: Id)
    requires Allowed(a, act) && id in q.infos && Inv(Detached(q, id)) && Shows(Detached(q, id), Do(a, act))
    ensures Follows(s, a, Ok(Removed(q, id), [act]))
  {
    RemovedKeeps(Detached(q, id), Do(a, act), id);
    assert Removed(Detached(q, id), id) == Removed(q, id);
    FollowsOne(s, a, act, Removed(q, id));
  }

  /** Refinement: from any state that meets the invariant, every step that does not abort
      meets it again, takes only steps the small model allows, and ends where they end. */
  lemma StepFollows(s: State, a: Rooms, e: Event)
    requires Inv(s) && Shows(s, a) && Enabled(s, e)
    ensures Step(s, e).Ok? ==> Follows(s, a, Step(s, e))
    ensures !e.Sends? ==> Step(s, e).Ok?
  {
    match e
    case Connects(ipv4) => AdmittedKeeps(s, a, ipv4);
    case GoesAway(id) => HungUpKeeps(s, a, id);
    case IsReaped(id, pick) => ReapFollows(s, a, id, pick);
    case Sends(id, text, pick) =>
      if Decode(text).Parsed? && Decode(text).msg.verb.Cmd? {
        var m := Decode(text).msg;
        if Expected(s.infos[id].state, m.verb.cmd) {
          CommandFollows(s, a, id, m.verb.cmd, m.params, pick);
        }
      }
  }

  lemma {:induction false} RunFollows(s: State, a: Rooms, es: seq<Event>)
    requires Inv(s) && Shows(s, a) && Legal(s, es)
    ensures Inv(Run(s, es))
    ensures AllAllowed(a, Acts(s, es)) && Shows(Run(s, es), DoAll(a, Acts(s, es)))
    decreases |es|
  {
    if es != [] {
      StepFollows(s, a, es[0]);
      var o := Step(s, es[0]);
      RunFollows(o.state, DoAll(a, o.acts), es[1..]);
      DoAllConcat(a, o.acts, Acts(o.state, es[1..]));
    }
  }

  lemma EmptyInv()
    ensures Inv(ServerSpec.EMPTY) && Shows(ServerSpec.EMPTY, NOBODY)
  {
  }

  /** Every reachable state meets the invariant. */
  lemma ReachableInv(s: State)
    requires Reachable(s)
    ensures Inv(s)
  {
    var es :| Legal(ServerSpec.EMPTY, es) && Run(ServerSpec.EMPTY, es) == s;
    EmptyInv();
    RunFollows(ServerSpec.EMPTY, NOBODY, es);
  }

  /** In every reachable state the channel map is exactly the index of `joined_channel`: a
      channel exists when somebody has joined it, under its own name, with exactly those who
      have joined it as members, all of them live connections, and exactly one operator. */
  lemma ChannelMapIsIndex(s: State)
    requires Reachable(s)
    ensures forall c :: c in s.rooms <==> exists id :: HasJoined(s, c, id)
    ensures forall c, id :: IsMember(s, c, id) <==> HasJoined(s, c, id)
    ensures forall c, id | IsMember(s, c, id) :: id in s.peers && id in s.infos && s.infos[id].state == RegisteredUser
    ensures forall c | c in s.rooms :: s.rooms[c].name == c && OneOperator(s.rooms[c].members)
  {
    ReachableInv(s);
    forall c
      ensures c in s.rooms <==> exists id :: HasJoined(s, c, id)
    {
      if c in s.rooms {
        var o :| IsBoss(s.rooms[c].members, o);
        assert IsMember(s, c, o);
      }
      if id :| HasJoined(s, c, id) {
        assert IsMember(s, c, id);
      }
    }
    forall c, id | IsMember(s, c, id)
      ensures id in s.peers && id in s.infos && s.infos[id].state == RegisteredUser
    {
      assert HasJoined(s, c, id);
    }
  }
}
