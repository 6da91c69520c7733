/** The registration data of every connection and the channels, by name. */
module Dbs {
  import opened Text
  import opened Connections
  import opened ServerSpec
  import opened Wiring
  import opened Channels
  import Invariant

  /** `quit_chan` returns false, returns true, or uses a missing nick. */
  datatype QuitResult = WasRefused | WasDone | WasBroken

  ghost function RoomsOf(channels: map<string, Channel>): map<string, Room>
    reads channels.Values
  {
    map c | c in channels :: channels[c].View()
  }

  /** No two names share a channel object, and no member's connection is gone. */
  ghost predicate ChannelsOk(channels: map<string, Channel>, conns: map<Id, Connection>)
    reads channels.Values
  {
    && (forall c, d | c in channels && d in channels && c != d :: channels[c] != channels[d])
    && (forall c {:trigger channels[c].Live(conns)} | c in channels :: channels[c].Live(conns))
  }

  /** What the rest sees of a change to one channel object. */
  twostate lemma OneRoom(new channels: map<string, Channel>, c: string)
    requires old(allocated(channels))
    requires c in channels
    requires forall d | d in channels && d != c :: unchanged(channels[d])
    ensures RoomsOf(channels) == old(RoomsOf(channels))[c := channels[c].View()]
  {
  }

  twostate lemma NoRoomChanged(new channels: map<string, Channel>, new conns: map<Id, Connection>)
    requires old(allocated(channels)) && old(allocated(conns))
    requires forall c | c in channels :: unchanged(channels[c])
    ensures RoomsOf(channels) == old(RoomsOf(channels))
    ensures old(ChannelsOk(channels, conns)) ==> ChannelsOk(channels, conns)
  {
  }

  lemma FlagsWithout(members: map<Id, Membership>, id: Id)
    ensures Flags(members - {id}) == Flags(members) - {id}
  {
  }

  lemma FlagsWith(members: map<Id, Membership>, id: Id, e: Membership)
    ensures Flags(members[id := e]) == Flags(members)[id := e.flags]
  {
  }

  class Db {
    var channels: map<string, Channel>
    var infos: map<Id, ConnInfo>

    ghost predicate Valid(conns: map<Id, Connection>)
      reads this, channels.Values
    {
      ChannelsOk(channels, conns)
    }

    ghost function View(net: Net, nextId: Id): State
      reads this, channels.Values, net.conns.Values
    {
      State(RoomsOf(channels), infos, Peers(net.conns), nextId)
    }

    constructor ()
      ensures channels == map[] && infos == map[]
    {
      channels, infos := map[], map[];
    }

    method JoinChan(conn: Connection, name: string, ghost net: Net)
      requires Valid(net.conns) && conn.id in infos && conn.id in net.conns && net.conns[conn.id] == conn
      modifies this, channels.Values
      ensures Valid(net.conns) && forall ch | ch in channels.Values :: ch in old(channels.Values) || fresh(ch)
      ensures var room := JoinedRoom(old(RoomsOf(channels)), conn.id, name);
              && RoomsOf(channels) == old(RoomsOf(channels))[name := room]
              && infos == old(infos)[conn.id := old(infos)[conn.id].(joined := Some(room.name))]
    {
      CreateOrEnter(name, conn, net);
      label entered:
      infos := infos[conn.id := infos[conn.id].(joined := Some(channels[name].name))];
      NoRoomChanged@entered(channels, net.conns);
    }

    method CreateOrEnter(name: string, conn: Connection, ghost net: Net)
      requires Valid(net.conns) && conn.id in net.conns && net.conns[conn.id] == conn
      modifies this`channels, channels.Values
      ensures Valid(net.conns) && forall ch | ch in channels.Values :: ch in old(channels.Values) || fresh(ch)
      ensures RoomsOf(channels) == old(RoomsOf(channels))[name := JoinedRoom(old(RoomsOf(channels)), conn.id, name)]
      ensures name in channels && channels[name].name == JoinedRoom(old(RoomsOf(channels)), conn.id, name).name
    {
      if name !in channels {
        CreateRoom(name, conn, net);
      } else {
        EnterRoom(name, conn, net);
      }
    }

    method CreateRoom(name: string, conn: Connection, ghost net: Net)
      requires Valid(net.conns) && name !in channels
      requires conn.id in net.conns && net.conns[conn.id] == conn
      modifies this`channels
      ensures Valid(net.conns) && forall ch | ch in channels.Values :: ch in old(channels.Values) || fresh(ch)
      ensures RoomsOf(channels) == old(RoomsOf(channels))[name := JoinedRoom(old(RoomsOf(channels)), conn.id, name)]
      ensures name in channels && channels[name].name == JoinedRoom(old(RoomsOf(channels)), conn.id, name).name
    {
      var chan := new Channel(name, conn);
      FlagsWith(map[], conn.id, Membership(conn, Member(false, true)));
      AddRoom(name, chan, net);
    }

    method EnterRoom(name: string, conn: Connection, ghost net: Net)
      requires Valid(net.conns) && name in channels
      requires conn.id in net.conns && net.conns[conn.id] == conn
      modifies channels[name]
      ensures Valid(net.conns)
      ensures RoomsOf(channels) == old(RoomsOf(channels))[name := JoinedRoom(old(RoomsOf(channels)), conn.id, name)]
      ensures channels[name].name == JoinedRoom(old(RoomsOf(channels)), conn.id, name).name
      ensures unchanged(this)
    {
      var chan := channels[name];
      assert channels[name].Live(net.conns);
      chan.AddMember(conn);
      FlagsWith(old(chan.members), conn.id, Membership(conn, Member(false, false)));
      OneRoom(channels, name);
    }

    method AddRoom(name: string, chan: Channel, ghost net: Net)
      requires Valid(net.conns) && name !in channels && chan !in channels.Values
      requires chan.Live(net.conns)
      modifies this`channels
      ensures Valid(net.conns) && channels == old(channels)[name := chan]
      ensures RoomsOf(channels) == old(RoomsOf(channels))[name := chan.View()]
    {
      assert forall c | c in channels :: channels[c] in channels.Values;
      channels := channels[name := chan];
    }

    method RemoveFrom(name: string, id: Id, ghost net: Net) returns (removed: bool, empty: bool)
      requires Valid(net.conns) && NetOk(net) && name in channels
      modifies channels[name]
      ensures NetOk(net) && Peers(net.conns) == old(Peers(net.conns)) && net.registry.view == old(net.registry.view)
      ensures Inputs(net.conns) == old(Inputs(net.conns))
      ensures Valid(net.conns)
      ensures removed <==> id in old(RoomsOf(channels))[name].members
      ensures empty <==> (old(RoomsOf(channels))[name].members - {id}).Keys == {}
      ensures var room := old(RoomsOf(channels))[name];
              RoomsOf(channels) == old(RoomsOf(channels))[name := room.(members := room.members - {id})]
    {
      var chan := channels[name];
      assert channels[name].Live(net.conns);
      removed := chan.RemoveMember(id);
      empty := chan.Empty();
      FlagsWithout(old(chan.members), id);
      OneRoom(channels, name);
      NoneChanged(net);
    }

    method DropRoom(name: string, ghost net: Net)
      requires Valid(net.conns) && NetOk(net) && name in channels
      modifies this`channels
      ensures NetOk(net) && Peers(net.conns) == old(Peers(net.conns)) && net.registry.view == old(net.registry.view)
      ensures Inputs(net.conns) == old(Inputs(net.conns))
      ensures Valid(net.conns) && channels == old(channels) - {name}
      ensures RoomsOf(channels) == old(RoomsOf(channels)) - {name}
      ensures channels.Values <= old(channels.Values)
    {
      channels := channels - {name};
      NoneChanged(net);
    }

    method PromoteIn(name: string, ghost net: Net) returns (promoted: Option<Id>, ghost pick: Id)
      requires Valid(net.conns) && NetOk(net) && name in channels
      modifies channels[name]
      ensures NetOk(net) && Peers(net.conns) == old(Peers(net.conns)) && net.registry.view == old(net.registry.view)
      ensures Inputs(net.conns) == old(Inputs(net.conns))
      ensures Valid(net.conns) && promoted == Heir(old(RoomsOf(channels))[name].members, pick)
      ensures var room := old(RoomsOf(channels))[name];
              RoomsOf(channels) == old(RoomsOf(channels))[name := room.(members := Promoted(room.members, pick))]
    {
      assert channels[name].Live(net.conns);
      promoted, pick := channels[name].MaybePromoteOperator();
      OneRoom(channels, name);
      NoneChanged(net);
    }

    /** Tells the channel who operates it now; false where the nick is missing. */
    method Announce(name: string, id: Id, ghost net: Net) returns (ok: bool)
      requires Valid(net.conns) && NetOk(net) && name in channels
      modifies net.conns.Values, net.registry
      ensures Valid(net.conns) && NetOk(net) && HasShed(old(net.registry.view), net.registry.view, {})
      ensures Inputs(net.conns) == old(Inputs(net.conns))
      ensures ok <==> id in infos && infos[id].nick.Some?
      ensures RoomsOf(channels) == old(RoomsOf(channels))
      ensures Peers(net.conns) ==
              if ok then Shout(old(Peers(net.conns)), RoomsOf(channels)[name].members.Keys,
                               System(name, infos[id].nick.value + " promoted to operator"))
              else old(Peers(net.conns))
    {
      ShedNothing(net.registry.view);
      ok := id in infos && infos[id].nick.Some?;
      if ok {
        channels[name].SendMessage(System(name, infos[id].nick.value + " promoted to operator"), net);
      }
      NoRoomChanged(channels, net.conns);
    }

    /** `pick` is the member that came first in the hash table. */
    method QuitChan(id: Id, name: string, ghost net: Net) returns (r: QuitResult, ghost pick: Id)
      requires Valid(net.conns) && NetOk(net)
      modifies this`channels, channels.Values, net.conns.Values, net.registry
      ensures Valid(net.conns) && NetOk(net) && HasShed(old(net.registry.view), net.registry.view, {})
      ensures Inputs(net.conns) == old(Inputs(net.conns))
      ensures channels.Values <= old(channels.Values)
      ensures ServerSpec.QuitChan(State(old(RoomsOf(channels)), infos, old(Peers(net.conns)), 0), id, name, pick)
              == AsQuit(r, RoomsOf(channels), infos, Peers(net.conns))
      ensures r == WasRefused ==>
                RoomsOf(channels) == old(RoomsOf(channels)) && Peers(net.conns) == old(Peers(net.conns))
    {
      pick := 0;
      ShedNothing(net.registry.view);
      if name !in channels {
        QuitRefused(RoomsOf(channels), infos, Peers(net.conns), id, name, pick);
        return WasRefused, pick;
      }
      assert channels[name] in channels.Values;
      r, pick := QuitRoom(id, name, net);
    }

    /** `quit_chan` once the channel is found. */
    method QuitRoom(id: Id, name: string, ghost net: Net) returns (r: QuitResult, ghost pick: Id)
      requires Valid(net.conns) && NetOk(net) && name in channels
      modifies this`channels, channels[name], net.conns.Values, net.registry
      ensures Valid(net.conns) && NetOk(net) && HasShed(old(net.registry.view), net.registry.view, {})
      ensures Inputs(net.conns) == old(Inputs(net.conns))
      ensures channels.Values <= old(channels.Values)
      ensures ServerSpec.QuitChan(State(old(RoomsOf(channels)), infos, old(Peers(net.conns)), 0), id, name, pick)
              == AsQuit(r, RoomsOf(channels), infos, Peers(net.conns))
      ensures r == WasRefused ==>
                RoomsOf(channels) == old(RoomsOf(channels)) && Peers(net.conns) == old(Peers(net.conns))
    {
      pick := 0;
      ShedNothing(net.registry.view);
      ghost var rooms, peers := RoomsOf(channels), Peers(net.conns);
      var removed, empty := RemoveFrom(name, id, net);
      if !removed {
        QuitRefused(rooms, infos, peers, id, name, pick);
        r := WasRefused;
      } else if empty {
        DropRoom(name, net);
        QuitDropped(rooms, infos, peers, id, name, pick, RoomsOf(channels), Peers(net.conns));
        r := WasDone;
      } else {
        r, pick := Succession(id, name, rooms, net);
      }
    }

    method Succession(ghost id: Id, name: string, ghost rooms: map<string, Room>, ghost net: Net)
      returns (r: QuitResult, ghost pick: Id)
      requires Valid(net.conns) && NetOk(net) && name in channels && name in rooms
      requires id in rooms[name].members && (rooms[name].members - {id}).Keys != {}
      requires RoomsOf(channels) == rooms[name := rooms[name].(members := rooms[name].members - {id})]
      modifies channels[name], net.conns.Values, net.registry
      ensures Valid(net.conns) && NetOk(net) && HasShed(old(net.registry.view), net.registry.view, {})
      ensures Inputs(net.conns) == old(Inputs(net.conns))
      ensures r != WasRefused
      ensures ServerSpec.QuitChan(State(rooms, infos, old(Peers(net.conns)), 0), id, name, pick)
              == AsQuit(r, RoomsOf(channels), infos, Peers(net.conns))
    {
      ShedNothing(net.registry.view);
      var promoted: Option<Id>;
      promoted, pick := PromoteIn(name, net);
      ghost var peers := Peers(net.conns);
      r := WasDone;
      if promoted.Some? {
        var ok := Announce(name, promoted.value, net);
        if !ok {
          r := WasBroken;
        }
      }
      QuitPromoted(rooms, infos, peers, id, name, pick, RoomsOf(channels), Peers(net.conns));
    }

    /** Looks through the connections in the order of the hash table, whatever it is. */
    method GetConnInfoByNick(nick: string) returns (r: Option<Id>)
      ensures r.Some? ==> r.value in infos && infos[r.value].nick == Some(nick)
      ensures r.None? ==> !NickUsed(infos, nick)
      ensures Invariant.NicksDistinct(infos) ==> r == FindNick(infos, nick)
    {
      var left := infos.Keys;
      while left != {}
        invariant left <= infos.Keys
        invariant forall id | id in infos && id !in left :: infos[id].nick != Some(nick)
      {
        var id :| id in left;
        if infos[id].nick == Some(nick) {
          if Invariant.NicksDistinct(infos) {
            Invariant.NickIsFound(infos, nick, id);
          }
          return Some(id);
        }
        left := left - {id};
      }
      return None;
    }

    method RegisterConnection(id: Id, ipv4: nat)
      modifies this`infos
      ensures infos == if id in old(infos) then old(infos)
              else old(infos)[id := ConnInfo(None, None, None, None, Init, ipv4)]
    {
      if id !in infos {
        infos := infos[id := ConnInfo(None, None, None, None, Init, ipv4)];
      }
    }

    method RemoveConnection(id: Id)
      modifies this`infos
      ensures infos == old(infos) - {id}
    {
      infos := infos - {id};
    }
  }

  /** What a result of `quit_chan` and the state it leaves say in terms of `QuitChan`. */
  function AsQuit(r: QuitResult, rooms: map<string, Room>, infos: map<Id, ConnInfo>, peers: map<Id, Peer>)
    : QuitOutcome
  {
    match r
    case WasRefused => Refused
    case WasDone => Gone(State(rooms, infos, peers, 0))
    case WasBroken => Broken
  }

  lemma QuitRefused(rooms: map<string, Room>, infos: map<Id, ConnInfo>, peers: map<Id, Peer>, id: Id, name: string,
                    pick: Id)
    requires name !in rooms || id !in rooms[name].members
    ensures ServerSpec.QuitChan(State(rooms, infos, peers, 0), id, name, pick) == Refused
    ensures name in rooms ==> rooms[name := rooms[name].(members := rooms[name].members - {id})] == rooms
  {
    if name in rooms {
      assert rooms[name].members - {id} == rooms[name].members;
    }
  }

  lemma QuitDropped(rooms: map<string, Room>, infos: map<Id, ConnInfo>, peers: map<Id, Peer>, id: Id, name: string,
                    pick: Id,
                    after: map<string, Room>, heard: map<Id, Peer>)
    requires name in rooms && id in rooms[name].members && (rooms[name].members - {id}).Keys == {}
    requires after == rooms[name := rooms[name].(members := rooms[name].members - {id})] - {name} && heard == peers
    ensures ServerSpec.QuitChan(State(rooms, infos, peers, 0), id, name, pick) == AsQuit(WasDone, after, infos, heard)
  {
    assert rooms[name := rooms[name].(members := rooms[name].members - {id})] - {name} == rooms - {name};
  }

  ghost function AfterPromotion(rooms: map<string, Room>, id: Id, name: string, pick: Id): map<string, Room>
    requires name in rooms
  {
    var without := rooms[name := rooms[name].(members := rooms[name].members - {id})];
    without[name := without[name].(members := Promoted(without[name].members, pick))]
  }

  /** The last step of `quit_chan`: what was announced, if anything. */
  lemma QuitPromoted(rooms: map<string, Room>, infos: map<Id, ConnInfo>, peers: map<Id, Peer>, id: Id, name: string,
                     pick: Id,
                     after: map<string, Room>, heard: map<Id, Peer>)
    requires name in rooms && id in rooms[name].members && (rooms[name].members - {id}).Keys != {}
    requires after == AfterPromotion(rooms, id, name, pick)
    ensures var heir := Heir(rooms[name].members - {id}, pick);
            var broken := heir.Some? && (heir.value !in infos || infos[heir.value].nick.None?);
            (if heir.None? then heard == peers
             else if broken then true
             else heard == Shout(peers, after[name].members.Keys,
                  System(name, infos[heir.value].nick.value + " promoted to operator")))
            ==> ServerSpec.QuitChan(State(rooms, infos, peers, 0), id, name, pick)
                == AsQuit(if broken then WasBroken else WasDone, after, infos, heard)
  {
    var left := rooms[name].members - {id};
    assert AfterPromotion(rooms, id, name, pick) == rooms[name := rooms[name].(members := Promoted(left, pick))];
  }

  lemma MoreConns(channels: map<string, Channel>, conns: map<Id, Connection>, id: Id, conn: Connection)
    requires ChannelsOk(channels, conns) && id !in conns
    ensures ChannelsOk(channels, conns[id := conn])
  {
    forall c | c in channels
      ensures channels[c].Live(conns[id := conn])
    {
      assert channels[c].Live(conns);
    }
  }

  lemma FewerConns(channels: map<string, Channel>, conns: map<Id, Connection>, id: Id)
    requires ChannelsOk(channels, conns) && forall c | c in channels :: id !in RoomsOf(channels)[c].members
    ensures ChannelsOk(channels, conns - {id})
  {
    forall c | c in channels
      ensures channels[c].Live(conns - {id})
    {
      assert channels[c].Live(conns);
      assert RoomsOf(channels)[c] == channels[c].View();
    }
  }
}
