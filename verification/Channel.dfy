/** A channel: its members, each with its connection and its flags. */
module Channels {
  import opened Text
  import opened Message
  import opened Polling
  import opened Connections
  import opened ServerSpec
  import opened Wiring

  /** `channel::member`: the connection and the two flags. */
  datatype Membership = Membership(conn: Connection, flags: Member)

  class Channel {
    var name: string
    var members: map<Id, Membership>

    ghost function View(): Room
      reads this
    {
      Room(name, Flags(members))
    }

    /** Every member refers to a live entry of the server's connections. */
    ghost predicate Live(conns: map<Id, Connection>)
      reads this
    {
      forall id | id in members :: id in conns && members[id].conn == conns[id]
    }

    constructor (name: string, conn: Connection)
      ensures this.name == name && members == map[conn.id := Membership(conn, Member(false, true))]
    {
      this.name := name;
      this.members := map[conn.id := Membership(conn, Member(false, true))];
    }

    method AddMember(conn: Connection)
      modifies this`members
      ensures members == if conn.id in old(members) then old(members)
                         else old(members)[conn.id := Membership(conn, Member(false, false))]
    {
      if conn.id !in members {
        members := members[conn.id := Membership(conn, Member(false, false))];
      }
    }

    /** `members.at(id)`: `None` stands for the exception. */
    method GetMember(id: Id) returns (m: Option<Member>)
      ensures m == if id in members then Some(members[id].flags) else None
    {
      m := if id in members then Some(members[id].flags) else None;
    }

    method RemoveMember(id: Id) returns (removed: bool)
      modifies this`members
      ensures removed <==> id in old(members)
      ensures members == old(members) - {id}
    {
      removed := id in members;
      members := members - {id};
    }

    /** `mute` and `unmute`; `found` is false where they throw. */
    method SetMuted(id: Id, muted: bool) returns (found: bool)
      modifies this`members
      ensures found <==> id in old(members)
      ensures found ==>
                var m := old(members)[id];
                members == old(members)[id := m.(flags := m.flags.(isMuted := muted))]
      ensures !found ==> members == old(members)
    {
      found := id in members;
      if found {
        members := members[id := members[id].(flags := members[id].flags.(isMuted := muted))];
      }
    }

    method SendMessage(m: Message, ghost net: Net)
      requires NetOk(net) && Live(net.conns)
      modifies net.conns.Values, net.registry
      ensures NetOk(net) && HasShed(old(net.registry.view), net.registry.view, {})
      ensures Inputs(net.conns) == old(Inputs(net.conns))
      ensures Peers(net.conns) == Shout(old(Peers(net.conns)), View().members.Keys, m)
    {
      var text := Encode(m);
      ghost var before := Peers(net.conns);
      ShedNothing(net.registry.view);
      var left := members.Keys;
      ghost var told: set<Id> := {};
      ShoutNobody(before, m);
      VisitAll(left);
      while left != {}
        invariant left <= members.Keys && told == members.Keys - left
        invariant NetOk(net) && HasShed(old(net.registry.view), net.registry.view, {})
        invariant Inputs(net.conns) == old(Inputs(net.conns))
        invariant Peers(net.conns) == Shout(before, told, m)
      {
        var id :| id in left;
        VisitOne(members.Keys, left, told, id);
        assert net.conns[id] in net.conns.Values;
        Tell(members[id].conn, text, m, before, told, net, old(net.registry.view));
        left := left - {id};
        told := told + {id};
      }
    }

    /** One turn of the loop of `send_message`; `text` is `m`, printed once for all. */
    method Tell(conn: Connection, text: string, ghost m: Message, ghost before: map<Id, Peer>, ghost told: set<Id>,
                ghost net: Net,
                ghost start: Registry)
      requires NetOk(net) && conn.id in net.conns && net.conns[conn.id] == conn && conn.id !in told && text == Encode(m)
      requires Peers(net.conns) == Shout(before, told, m) && HasShed(start, net.registry.view, {})
      modifies net.conns.Values, net.registry
      ensures NetOk(net) && HasShed(start, net.registry.view, {})
      ensures Inputs(net.conns) == old(Inputs(net.conns))
      ensures Peers(net.conns) == Shout(before, told + {conn.id}, m)
    {
      assert conn.id in Peers(net.conns);
      ShoutOne(before, told, m, conn.id);
      ghost var mid := net.registry.view;
      if conn.connected {
        Send(conn, text, m, conn.id, true, net);
        ShedThen(start, mid, net.registry.view, {});
      }
    }

    /** The first operator is searched for; without one, the first member of the hash table,
        whichever it is, becomes it. */
    method MaybePromoteOperator() returns (promoted: Option<Id>, ghost pick: Id)
      modifies this`members
      ensures promoted == Heir(old(View()).members, pick)
      ensures View() == old(View()).(members := Promoted(old(View()).members, pick))
      ensures members.Keys == old(members.Keys)
      ensures forall id | id in members :: members[id].conn == old(members)[id].conn
    {
      pick := 0;
      var left := members.Keys;
      while left != {}
        invariant left <= members.Keys
        invariant forall id | id in members && id !in left :: !members[id].flags.isOperator
      {
        var id :| id in left;
        if members[id].flags.isOperator {
          assert View().members[id].isOperator;
          return None, pick;
        }
        left := left - {id};
      }
      if members.Keys == {} {
        return None, pick;
      }
      var id :| id in members.Keys;
      pick := id;
      members := members[id := members[id].(flags := members[id].flags.(isOperator := true))];
      return Some(id), pick;
    }

    predicate Empty()
      reads this
    {
      members.Keys == {}
    }
  }

  function Flags(members: map<Id, Membership>): (f: map<Id, Member>)
    ensures f.Keys == members.Keys
  {
    map id | id in members :: members[id].flags
  }

  lemma ShoutNobody(p: map<Id, Peer>, m: Message)
    ensures Shout(p, {}, m) == p
  {
  }

  lemma ShoutOne(p: map<Id, Peer>, told: set<Id>, m: Message, id: Id)
    requires id in p && id !in told
    ensures var q := Shout(p, told, m);
            && q[id] == p[id]
            && Shout(p, told + {id}, m) == if p[id].connected then q[id := Append(q[id], m, true)] else q
  {
  }
}
