/** The server: its connections, their data, and the handling of one message. */
module Servers {
  import opened Text
  import opened Message
  import opened Polling
  import opened Connections
  import opened ServerSpec
  import opened Invariant
  import opened Wiring
  import opened Dbs
  import opened Clearing
  import opened Worlds
  import opened Traffic
  import opened Callbacks
  import opened Passes
  import opened Rounds

  class Server {
    const registry: PollRegistry
    const db: Db
    const listenerFd: int
    var conns: map<Id, Connection>
    var nextId: Id
    var listenerTok: nat

    ghost function TheNet(): Net
      reads this
    {
      Net(conns, registry, Watch(listenerTok, OnAccept, listenerFd, POLLIN))
    }

    /** No wakeup is lost, nothing sent or received is lost, and nothing dangles. */
    ghost predicate Sound()
      reads this, db, registry, db.channels.Values, conns.Values
    {
      NetOk(TheNet()) && db.Valid(conns)
    }

    ghost function View(): State
      reads this, db, db.channels.Values, conns.Values
    {
      db.View(TheNet(), nextId)
    }

    /** The state, and both ends of every connection. */
    ghost function World(): World
      reads this, db, db.channels.Values, conns.Values
    {
      Worlds.World(View(), PortsOf(Inputs(conns)))
    }

    ghost predicate Valid()
      reads this, db, registry, db.channels.Values, conns.Values
    {
      Sound() && Inv(View())
    }

    /** The start of `run`: the listener is registered. */
    constructor (listenerFd: int)
      ensures Valid() && World() == START && fresh(registry) && fresh(db) && db.channels == map[]
    {
      var r := new PollRegistry();
      var tok := r.RegisterEvent(listenerFd, POLLIN, OnAccept);
      WatchRegister(Registry(0, []), listenerFd, POLLIN, OnAccept);
      this.listenerFd := listenerFd;
      registry := r;
      db := new Db();
      conns, nextId, listenerTok := map[], 0, tok;
      new;
      assert registry.view == Register(Registry(0, []), listenerFd, POLLIN, OnAccept);
      EmptyInv();
      assert World() == START;
    }

    // -------------------------------------------------------------- single moves

    /** `conn->send_message(m)`. */
    method Answer(id: Id, m: Message)
      requires Sound() && id in conns && conns[id].connected
      modifies registry, conns.Values
      ensures Sound() && HasShed(old(registry.view), registry.view, {})
      ensures Inputs(conns) == old(Inputs(conns))
      ensures View() == Reply(old(View()), id, m)
      ensures unchanged(db`channels)
    {
      assert conns[id] in conns.Values && conns[id].id == id;
      Send(conns[id], Encode(m), m, id, false, TheNet());
      NoRoomChanged(db.channels, conns);
    }

    method Tell(name: string, m: Message)
      requires Sound() && name in db.channels
      modifies registry, conns.Values
      ensures Sound() && HasShed(old(registry.view), registry.view, {})
      ensures Inputs(conns) == old(Inputs(conns))
      ensures name in old(View()).rooms && View() == Broadcast(old(View()), name, m)
      ensures unchanged(db`channels)
    {
      db.channels[name].SendMessage(m, TheNet());
      NoRoomChanged(db.channels, conns);
    }

    method Close(id: Id)
      requires Sound() && id in conns
      modifies registry, conns.Values
      ensures Sound() && HasShed(old(registry.view), registry.view, {id})
      ensures Inputs(conns) == old(Inputs(conns))
      ensures View() == HungUp(old(View()), id)
      ensures unchanged(db`channels)
    {
      assert conns[id] in conns.Values && conns[id].id == id;
      HangUp(conns[id], id, TheNet());
      NoRoomChanged(db.channels, conns);
    }

    method PutInfo(id: Id, info: ConnInfo)
      requires Sound()
      modifies db`infos
      ensures Sound() && View() == SetInfo(old(View()), id, info)
      ensures Inputs(conns) == old(Inputs(conns))
      ensures unchanged(db`channels)
    {
      db.infos := db.infos[id := info];
      NoneChanged(TheNet());
      NoRoomChanged(db.channels, conns);
    }

    /** `joined_channel = std::nullopt`. */
    method Detach(id: Id)
      requires Sound() && id in db.infos
      modifies db`infos
      ensures Sound() && View() == Detached(old(View()), id)
      ensures Inputs(conns) == old(Inputs(conns))
      ensures unchanged(db`channels)
    {
      PutInfo(id, db.infos[id].(joined := None));
    }

    method Depart(id: Id, name: string) returns (r: QuitResult, ghost pick: Id)
      requires Sound()
      modifies db`channels, db.channels.Values, registry, conns.Values
      ensures Sound() && HasShed(old(registry.view), registry.view, {})
      ensures Inputs(conns) == old(Inputs(conns))
      ensures forall ch | ch in db.channels.Values :: ch in old(db.channels.Values)
      ensures ServerSpec.QuitChan(old(View()), id, name, pick)
              == AsQuitted(r, View())
      ensures r == WasRefused ==> View() == old(View())
    {
      ghost var s := View();
      r, pick := db.QuitChan(id, name, TheNet());
      assert db.channels.Values <= old(db.channels.Values);
      QuitAnyNextId(s.rooms, s.infos, s.peers, nextId, id, name, pick);
    }

    method Arrive(id: Id, name: string)
      requires Sound() && id in conns && id in db.infos
      modifies db, db.channels.Values
      ensures Sound() && (forall ch | ch in db.channels.Values :: ch in old(db.channels.Values) || fresh(ch))
      ensures View() == ServerSpec.JoinChan(old(View()), id, name)
      ensures Inputs(conns) == old(Inputs(conns))
      ensures name in db.channels && name in View().rooms && id in View().rooms[name].members
    {
      db.JoinChan(conns[id], name, TheNet());
      assert name in RoomsOf(db.channels);
      NoneChanged(TheNet());
    }

    /** `mute` or `unmute`; false where they throw. */
    method Voice(name: string, id: Id, muted: bool) returns (found: bool)
      requires Sound() && name in db.channels
      modifies db.channels.Values
      ensures Sound() && name in old(View()).rooms && (found <==> id in old(View()).rooms[name].members)
      ensures found ==> View() == SetMember(old(View()), name, id,
              old(View()).rooms[name].members[id].(isMuted := muted))
      ensures Inputs(conns) == old(Inputs(conns))
    {
      var chan := db.channels[name];
      assert chan in db.channels.Values && db.channels[name].Live(conns);
      found := chan.SetMuted(id, muted);
      if found {
        FlagsWith(old(chan.members), id, chan.members[id]);
      }
      OneRoom(db.channels, name);
      NoneChanged(TheNet());
    }

    /** `get_channel(name)->get_member(id)`, on a channel that exists. */
    method MemberOf(name: string, id: Id) returns (m: Option<Member>)
      requires name in db.channels
      ensures name in View().rooms
      ensures m == if id in View().rooms[name].members then Some(View().rooms[name].members[id]) else None
    {
      m := db.channels[name].GetMember(id);
    }

    // -------------------------------------------------------------- one message

    ghost predicate Attending(id: Id)
      reads this, db, conns.Values
    {
      id in conns && conns[id].connected && id in db.infos && NicksDistinct(db.infos)
    }

    method OnNick(id: Id, ps: seq<string>)
      requires Sound() && Attending(id)
      modifies db, registry, conns.Values
      ensures Sound() && HasShed(old(registry.view), registry.view, {}) && unchanged(db`channels)
      ensures Inputs(conns) == old(Inputs(conns))
      ensures HandleNick(old(View()), id, ps).Ok? && View() == HandleNick(old(View()), id, ps).state
    {
      ShedNothing(registry.view);
      if |ps| < 1 {
        Answer(id, NeedMoreParams(Nick));
        return;
      }
      if |ps[0]| > 50 {
        Answer(id, ERRONEUS_NICKNAME);
        return;
      }
      var used := db.GetConnInfoByNick(ps[0]);
      if used.Some? {
        Answer(id, NICKNAME_IN_USE);
        return;
      }
      var info := db.infos[id];
      PutInfo(id, info.(nick := Some(ps[0]), state := if info.state == Init then RegisteredNick else info.state));
    }

    method OnUser(id: Id, ps: seq<string>)
      requires Sound() && Attending(id)
      modifies db, registry, conns.Values
      ensures Sound() && HasShed(old(registry.view), registry.view, {}) && unchanged(db`channels)
      ensures Inputs(conns) == old(Inputs(conns))
      ensures HandleUser(old(View()), id, ps).Ok? && View() == HandleUser(old(View()), id, ps).state
    {
      ShedNothing(registry.view);
      if |ps| < 4 {
        Answer(id, NeedMoreParams(User));
        return;
      }
      var info := db.infos[id];
      if info.state == RegisteredUser {
        Answer(id, ALREADY_REGISTERED);
        return;
      }
      PutInfo(id, info.(username := Some(ps[0]), realname := Some(ps[3]), state := RegisteredUser));
    }

    /** The checks of `WHOIS` and the answer; `None` where it throws. */
    method WhoisAnswer(id: Id, ps: seq<string>) returns (m: Option<Message>)
      requires Attending(id)
      ensures HandleWhois(View(), id, ps) == if m.None? then Abort else Outcome.Ok(Reply(View(), id, m.value), [])
    {
      if |ps| < 1 {
        return Some(NeedMoreParams(Whois));
      }
      var joined := db.infos[id].joined;
      if joined.None? {
        return Some(NOT_ON_CHANNEL);
      }
      if joined.value !in db.channels {
        return None;
      }
      var member := MemberOf(joined.value, id);
      if member.None? {
        return None;
      }
      if !member.value.isOperator {
        return Some(CHAN_OP_PRIV_NEEDED);
      }
      var target := db.GetConnInfoByNick(ps[0]);
      if target.None? {
        return Some(NO_SUCH_NICK);
      }
      return Some(WhoisReply(db.infos[target.value]));
    }

    method OnWhois(id: Id, ps: seq<string>) returns (threw: bool)
      requires Sound() && Attending(id)
      modifies registry, conns.Values
      ensures Sound() && HasShed(old(registry.view), registry.view, {})
      ensures Inputs(conns) == old(Inputs(conns))
      ensures Did(HandleWhois(old(View()), id, ps), threw, View())
    {
      ShedNothing(registry.view);
      ghost var s := View();
      var m := WhoisAnswer(id, ps);
      assert View() == s;
      if m.Some? {
        Answer(id, m.value);
      }
      return m.None?;
    }

    method OnPrivmsg(id: Id, ps: seq<string>) returns (threw: bool)
      requires Sound() && Attending(id)
      modifies registry, conns.Values
      ensures Sound() && HasShed(old(registry.view), registry.view, {})
      ensures Inputs(conns) == old(Inputs(conns))
      ensures Did(HandlePrivmsg(old(View()), id, ps), threw, View())
    {
      ShedNothing(registry.view);
      if |ps| < 2 {
        Answer(id, NeedMoreParams(Privmsg));
        return false;
      }
      var name := GetChanName(ps[0], db.infos[id]);
      if name.None? {
        Answer(id, NOT_ON_CHANNEL);
        return false;
      }
      if name.value !in db.channels {
        Answer(id, NO_SUCH_CHANNEL);
        return false;
      }
      var member := MemberOf(name.value, id);
      if member.None? {
        return true;
      }
      if member.value.isMuted {
        Answer(id, CANNOT_SEND_TO_CHAN);
        return false;
      }
      var nick := db.infos[id].nick;
      if nick.None? {
        return true;
      }
      Tell(name.value, PrivateMessage(nick.value, [name.value, ps[|ps| - 1]]));
      return false;
    }

    /** The checks that `MODE` and `KICK` share: the sender operates the channel, and the
        nick is somebody's. */
    method ModeratorCheck(id: Id, name: string, nick: string) returns (v: Verdict)
      requires Attending(id) && name in db.channels
      ensures name in View().rooms && v == ModeratorVerdict(View(), id, name, nick)
    {
      var member := MemberOf(name, id);
      if member.None? {
        return Throws;
      }
      if !member.value.isOperator {
        return Says(CHAN_OP_PRIV_NEEDED);
      }
      var target := db.GetConnInfoByNick(nick);
      if target.None? {
        return Says(NO_SUCH_NICK);
      }
      return Goes(name, target.value);
    }

    /** `MODE` and `KICK` end here when the checks fail. */
    method Refuse(id: Id, v: Verdict) returns (threw: bool)
      requires Sound() && Attending(id) && !v.Goes?
      modifies registry, conns.Values
      ensures Sound() && HasShed(old(registry.view), registry.view, {})
      ensures Inputs(conns) == old(Inputs(conns)) && unchanged(db`channels)
      ensures threw == v.Throws? && View() == if threw then old(View()) else Reply(old(View()), id, v.message)
    {
      ShedNothing(registry.view);
      if v.Says? {
        Answer(id, v.message);
      }
      threw := v.Throws?;
    }

    method ModeCheck(id: Id, ps: seq<string>) returns (v: Verdict)
      requires Attending(id)
      ensures v == ModeVerdict(View(), id, ps)
    {
      if |ps| < 3 {
        return Says(NeedMoreParams(Mode));
      }
      var name := GetChanName(ps[0], db.infos[id]);
      if name.None? {
        return Says(NOT_ON_CHANNEL);
      }
      if name.value !in db.channels {
        return Says(NO_SUCH_CHANNEL);
      }
      v := ModeratorCheck(id, name.value, ps[2]);
    }

    method OnMode(id: Id, ps: seq<string>) returns (threw: bool)
      requires Sound() && Attending(id)
      modifies db.channels.Values, registry, conns.Values
      ensures Sound() && HasShed(old(registry.view), registry.view, {})
      ensures Inputs(conns) == old(Inputs(conns))
      ensures Did(HandleMode(old(View()), id, ps), threw, View())
    {
      ShedNothing(registry.view);
      var v := ModeCheck(id, ps);
      if v.Goes? {
        threw := Modify(id, v.name, v.target, ps[1]);
      } else {
        threw := Refuse(id, v);
      }
    }

    /** What the modifiers of a `MODE` do; nothing for any but `+v` and `-v`. */
    method Modify(ghost id: Id, name: string, target: Id, modifiers: string) returns (threw: bool)
      requires Sound() && name in db.channels
      modifies db.channels.Values
      ensures Sound() && Inputs(conns) == old(Inputs(conns))
      ensures name in old(View()).rooms && Did(Voiced(old(View()), id, name, target, modifiers), threw, View())
    {
      var found := true;
      if Occurs("+v", modifiers) {
        found := Voice(name, target, false);
      } else if Occurs("-v", modifiers) {
        found := Voice(name, target, true);
      }
      threw := !found;
    }

    method KickCheck(id: Id, ps: seq<string>) returns (v: Verdict)
      requires Attending(id)
      ensures v == KickVerdict(View(), id, ps)
    {
      if |ps| < 2 {
        return Says(NeedMoreParams(Kick));
      }
      var name := GetChanName(ps[0], db.infos[id]);
      if name.None? || name.value !in db.channels {
        return Says(NOT_ON_CHANNEL);
      }
      v := ModeratorCheck(id, name.value, ps[1]);
    }

    method OnKick(id: Id, ps: seq<string>) returns (threw: bool, ghost pick: Id)
      requires Sound() && Attending(id)
      modifies db, db.channels.Values, registry, conns.Values
      ensures Sound() && HasShed(old(registry.view), registry.view, {})
      ensures Inputs(conns) == old(Inputs(conns))
      ensures forall ch | ch in db.channels.Values :: ch in old(db.channels.Values)
      ensures Did(HandleKick(old(View()), id, ps, pick), threw, View())
    {
      pick := 0;
      ghost var s := View();
      var v := KickCheck(id, ps);
      assert View() == s;
      if v.Goes? {
        threw, pick := KickOut(id, v.name, v.target);
      } else {
        threw := Refuse(id, v);
      }
      KickIs(s, id, ps, v, pick, threw, View());
    }

    method KickOut(id: Id, name: string, target: Id) returns (threw: bool, ghost pick: Id)
      requires Sound() && id in conns && conns[id].connected && name in db.channels && target in db.infos
      modifies db, db.channels.Values, registry, conns.Values
      ensures Sound() && HasShed(old(registry.view), registry.view, {})
      ensures Inputs(conns) == old(Inputs(conns))
      ensures forall ch | ch in db.channels.Values :: ch in old(db.channels.Values)
      ensures Did(Kicked(old(View()), id, name, target, pick), threw, View())
    {
      ghost var s := View();
      var r;
      r, pick := Depart(target, name);
      ghost var t := View();
      if r == WasRefused {
        assert s.peers[id].connected;
        AnswerAgain(id, NOT_ON_CHANNEL, old(registry.view));
      } else if r == WasDone {
        Detach(target);
      }
      KickedIs(s, id, name, target, pick, r, t, View());
      threw := r == WasBroken;
    }

    method OnJoin(id: Id, ps: seq<string>) returns (threw: bool, ghost pick: Id)
      requires Sound() && Attending(id)
      modifies db, db.channels.Values, registry, conns.Values
      ensures Sound() && HasShed(old(registry.view), registry.view, {})
      ensures Inputs(conns) == old(Inputs(conns))
      ensures forall ch | ch in db.channels.Values :: ch in old(db.channels.Values) || fresh(ch)
      ensures Did(HandleJoin(old(View()), id, ps, pick), threw, View())
    {
      ShedNothing(registry.view);
      pick := 0;
      if |ps| < 1 {
        Answer(id, NeedMoreParams(Join));
        return false, pick;
      }
      if !ChannelName(ps[0]) {
        Answer(id, NO_SUCH_CHANNEL);
        return false, pick;
      }
      threw, pick := Move(id, ps[0]);
    }

    /** `JOIN` once the name is accepted: `quit_chan`, `join_chan`, and the announcement. */
    method Move(id: Id, name: string) returns (threw: bool, ghost pick: Id)
      requires Sound() && Attending(id)
      modifies db, db.channels.Values, registry, conns.Values
      ensures Sound() && HasShed(old(registry.view), registry.view, {})
      ensures Inputs(conns) == old(Inputs(conns))
      ensures forall ch | ch in db.channels.Values :: ch in old(db.channels.Values) || fresh(ch)
      ensures Did(Moved(old(View()), id, name, pick), threw, View())
    {
      ghost var s := View();
      var r;
      r, pick := Vacate(id);
      ghost var t, held := View(), db.channels.Values;
      assert held <= old(db.channels.Values);
      threw := true;
      if r != WasBroken {
        threw := Enter(id, name, old(registry.view));
        assert forall ch | ch in db.channels.Values :: ch in held || fresh(ch);
      }
      MovedIs(s, id, name, pick, r, t, threw, View());
    }

    /** `quit_chan` on the channel the connection is in, if any. */
    method Vacate(id: Id) returns (r: QuitResult, ghost pick: Id)
      requires Sound() && id in db.infos
      modifies db`channels, db.channels.Values, registry, conns.Values
      ensures Sound() && HasShed(old(registry.view), registry.view, {})
      ensures Inputs(conns) == old(Inputs(conns))
      ensures forall ch | ch in db.channels.Values :: ch in old(db.channels.Values)
      ensures (if old(View()).infos[id].joined.None? then Refused
               else ServerSpec.QuitChan(old(View()), id, old(View()).infos[id].joined.value, pick))
              == AsQuitted(r, View())
      ensures r == WasRefused ==> View() == old(View())
    {
      ShedNothing(registry.view);
      pick := 0;
      r := WasRefused;
      var joined := db.infos[id].joined;
      if joined.Some? {
        r, pick := Depart(id, joined.value);
      }
    }

    method Enter(id: Id, name: string, ghost start: Registry) returns (threw: bool)
      requires Sound() && id in conns && id in db.infos && HasShed(start, registry.view, {})
      modifies db, db.channels.Values, registry, conns.Values
      ensures Sound() && HasShed(start, registry.view, {})
      ensures Inputs(conns) == old(Inputs(conns))
      ensures forall ch | ch in db.channels.Values :: ch in old(db.channels.Values) || fresh(ch)
      ensures threw <==> old(View()).infos[id].nick.None?
      ensures !threw ==> View() == Entered(old(View()), id, name)
    {
      ghost var s := View();
      Arrive(id, name);
      ghost var t := View();
      threw := Welcome(id, name, start);
      EnteredIs(s, id, name, t, threw, View());
    }

    method Welcome(id: Id, name: string, ghost start: Registry) returns (threw: bool)
      requires Sound() && id in db.infos && HasShed(start, registry.view, {})
      requires name in db.channels && name in View().rooms && id in View().rooms[name].members
      modifies registry, conns.Values
      ensures Sound() && HasShed(start, registry.view, {})
      ensures Inputs(conns) == old(Inputs(conns)) && unchanged(db`channels)
      ensures threw <==> db.infos[id].nick.None?
      ensures !threw ==> name in old(View()).rooms && id in old(View()).rooms[name].members
                         && View() == Broadcast(old(View()), name, JoinMessage(old(View()), id, name))
    {
      var member := MemberOf(name, id);
      var nick := db.infos[id].nick;
      if nick.Some? {
        TellAgain(name, System(name, JoinText(nick.value, name, member.value.isOperator)), start);
      }
      return nick.None?;
    }

    /** `Tell`, after `start` has already evolved. */
    method TellAgain(name: string, m: Message, ghost start: Registry)
      requires Sound() && name in db.channels && HasShed(start, registry.view, {})
      modifies registry, conns.Values
      ensures Sound() && HasShed(start, registry.view, {})
      ensures Inputs(conns) == old(Inputs(conns))
      ensures name in old(View()).rooms && View() == Broadcast(old(View()), name, m)
      ensures unchanged(db`channels)
    {
      ghost var mid := registry.view;
      Tell(name, m);
      ShedThen(start, mid, registry.view, {});
    }

    method OnQuit(id: Id, ps: seq<string>) returns (threw: bool, ghost pick: Id)
      requires Sound() && Attending(id)
      modifies db, db.channels.Values, registry, conns.Values
      ensures Sound() && HasShed(old(registry.view), registry.view, {id})
      ensures Inputs(conns) == old(Inputs(conns))
      ensures forall ch | ch in db.channels.Values :: ch in old(db.channels.Values)
      ensures Did(HandleQuit(old(View()), id, ps, pick), threw, View())
    {
      ShedNothing(registry.view);
      ShedAtMost(registry.view, registry.view, {}, {id});
      pick := 0;
      var nick, joined := db.infos[id].nick, db.infos[id].joined;
      if nick.None? || |ps| == 1 {
        return true, pick;
      }
      var text := if |ps| == 0 then nick.value + " quit" else ps[1];
      if joined.None? {
        Close(id);
        return false, pick;
      }
      if joined.value !in db.channels {
        return true, pick;
      }
      threw, pick := Leave(id, joined.value, PrivateMessage(nick.value, [text]));
    }

    /** `QUIT` from a channel, after the checks. */
    method Leave(id: Id, name: string, m: Message) returns (threw: bool, ghost pick: Id)
      requires Sound() && Attending(id) && name in db.channels
      modifies db, db.channels.Values, registry, conns.Values
      ensures Sound() && HasShed(old(registry.view), registry.view, {id})
      ensures Inputs(conns) == old(Inputs(conns))
      ensures forall ch | ch in db.channels.Values :: ch in old(db.channels.Values)
      ensures name in old(View()).rooms
      ensures var o := Farewell(old(View()), id, name, m, pick);
              (threw <==> o.Abort?) && (!threw ==> View() == HungUp(Detached(o.state, id), id))
    {
      ghost var start := registry.view;
      threw, pick := Part(id, name, m);
      ShedAtMost(start, registry.view, {}, {id});
      if !threw {
        Detach(id);
        CloseAgain(id, start);
      }
    }

    /** A last message to the channel, then `quit_chan`. */
    method Part(id: Id, name: string, m: Message) returns (threw: bool, ghost pick: Id)
      requires Sound() && name in db.channels
      modifies db`channels, db.channels.Values, registry, conns.Values
      ensures Sound() && HasShed(old(registry.view), registry.view, {})
      ensures Inputs(conns) == old(Inputs(conns))
      ensures forall ch | ch in db.channels.Values :: ch in old(db.channels.Values)
      ensures name in old(View()).rooms && Did(Farewell(old(View()), id, name, m, pick), threw, View())
    {
      ghost var s, start := View(), registry.view;
      Tell(name, m);
      ghost var mid := registry.view;
      var r;
      r, pick := Depart(id, name);
      ShedThen(start, mid, registry.view, {});
      FarewellIs(s, id, name, m, pick, r, View());
      threw := r == WasBroken;
    }

    method CloseAgain(id: Id, ghost start: Registry)
      requires Sound() && id in conns && HasShed(start, registry.view, {})
      modifies registry, conns.Values
      ensures Sound() && HasShed(start, registry.view, {id})
      ensures Inputs(conns) == old(Inputs(conns))
      ensures View() == HungUp(old(View()), id)
      ensures unchanged(db`channels)
    {
      ghost var mid := registry.view;
      Close(id);
      ShedThen(start, mid, registry.view, {id});
    }

    /** The switch over the commands. */
    method Dispatch(id: Id, cmd: Command, ps: seq<string>) returns (threw: bool, ghost pick: Id)
      requires Sound() && Attending(id)
      modifies db, db.channels.Values, registry, conns.Values
      ensures Sound() && HasShed(old(registry.view), registry.view, {id})
      ensures Inputs(conns) == old(Inputs(conns))
      ensures forall ch | ch in db.channels.Values :: ch in old(db.channels.Values) || fresh(ch)
      ensures Did(HandleCommand(old(View()), id, cmd, ps, pick), threw, View())
    {
      ShedNothing(registry.view);
      ghost var start := registry.view;
      threw, pick := false, 0;
      match cmd {
        case Pong =>
        case Nick => OnNick(id, ps);
        case User => OnUser(id, ps);
        case Ping => Answer(id, PONG);
        case Join => threw, pick := OnJoin(id, ps);
        case Mode => threw := OnMode(id, ps);
        case Whois => threw := OnWhois(id, ps);
        case Privmsg => threw := OnPrivmsg(id, ps);
        case Quit =>
          threw, pick := OnQuit(id, ps);
          return;
        case Kick => threw, pick := OnKick(id, ps);
      }
      ShedAtMost(start, registry.view, {}, {id});
    }

    method HandleMessage(id: Id, text: string) returns (threw: bool, ghost pick: Id)
      requires Sound() && Attending(id)
      modifies db, db.channels.Values, registry, conns.Values
      ensures Sound() && HasShed(old(registry.view), registry.view, {id})
      ensures Inputs(conns) == old(Inputs(conns))
      ensures forall ch | ch in db.channels.Values :: ch in old(db.channels.Values) || fresh(ch)
      ensures Did(ServerSpec.HandleMessage(old(View()), id, text, pick), threw, View())
    {
      ShedNothing(registry.view);
      ShedAtMost(registry.view, registry.view, {}, {id});
      pick := 0;
      var r := Parse(text);
      match r {
        case ParseError => threw := false;
        case OutOfRange => threw := true;
        case Parsed(m) =>
          if m.verb.Numeric? {
            threw := true;
          } else if !Expected(db.infos[id].state, m.verb.cmd) {
            threw := false;
          } else {
            threw, pick := Dispatch(id, m.verb.cmd, m.params);
          }
      }
    }

    /** `Answer`, after `start` has already evolved. */
    method AnswerAgain(id: Id, m: Message, ghost start: Registry)
      requires Sound() && id in conns && conns[id].connected && HasShed(start, registry.view, {})
      modifies registry, conns.Values
      ensures Sound() && HasShed(start, registry.view, {})
      ensures Inputs(conns) == old(Inputs(conns))
      ensures View() == Reply(old(View()), id, m)
      ensures unchanged(db`channels)
    {
      ghost var mid := registry.view;
      Answer(id, m);
      ShedThen(start, mid, registry.view, {});
    }
    // -------------------------------------------------------------- one callback

    /** `poll_accept`. It throws when `accept` or `getpeername` fails; in the second case the
        connection is already there. */
    method PollAccept(ans: Answers, ghost call: Call) returns (threw: bool)
      requires Sound() && nextId !in conns && nextId !in db.infos && call.cb == OnAccept
      modifies this`conns, this`nextId, db`infos, registry
      ensures Sound() && HasShed(old(registry.view), registry.view, {})
      ensures (forall c | c in conns.Values :: c in old(conns.Values) || fresh(c)) && unchanged(db`channels)
      ensures threw <==> !ans.accept.NewClient?
      ensures DidLeave(old(World()), call, ans, threw, World())
    {
      ghost var w := World();
      var id := TakeId();
      match ans.accept {
        case AcceptFailed => threw := true;
        case AddressFailed(fd) =>
          Connect(id, fd);
          threw := true;
        case NewClient(fd, ipv4) =>
          Admit(id, fd, ipv4, w, call, ans);
          threw := false;
      }
      if threw {
        AcceptThrows(w, call, ans, World());
      }
    }

    /** A client that was accepted and whose address is known. */
    method Admit(id: Id, fd: int, ipv4: nat, ghost w: World, ghost call: Call, ghost ans: Answers)
      requires Sound() && id !in conns && id !in db.infos && call.cb == OnAccept && ans.accept == NewClient(fd, ipv4)
      requires World() == w.(state := w.state.(nextId := id + 1)) && w.state.nextId == id
      modifies this`conns, db`infos, registry
      ensures Sound() && HasShed(old(registry.view), registry.view, {})
      ensures (forall c | c in conns.Values :: c in old(conns.Values) || fresh(c)) && unchanged(db`channels)
      ensures DidLeave(w, call, ans, false, World())
    {
      Enroll(id, fd, ipv4);
      AcceptEnds(w, call, ans, db.infos, Peers(conns), PortsOf(Inputs(conns)));
    }

    method TakeId() returns (id: Id)
      requires Sound()
      modifies this`nextId
      ensures Sound() && id == old(nextId) && nextId == id + 1
      ensures RoomsOf(db.channels) == old(RoomsOf(db.channels)) && Peers(conns) == old(Peers(conns))
      ensures Inputs(conns) == old(Inputs(conns))
    {
      id := nextId;
      nextId := nextId + 1;
      NoneChanged(TheNet());
      NoRoomChanged(db.channels, conns);
    }

    method Enroll(id: Id, fd: int, ipv4: nat)
      requires Sound() && id !in conns && id !in db.infos
      modifies this`conns, db`infos, registry
      ensures Sound() && HasShed(old(registry.view), registry.view, {})
      ensures (forall c | c in conns.Values :: c in old(conns.Values) || fresh(c)) && unchanged(db`channels)
      ensures RoomsOf(db.channels) == old(RoomsOf(db.channels))
      ensures Peers(conns) == old(Peers(conns))[id := Peer(true, [])]
      ensures PortsOf(Inputs(conns)) == PortsOf(old(Inputs(conns)))[id := NEW_PORT]
      ensures db.infos == old(db.infos)[id := ConnInfo(None, None, None, None, Init, ipv4)]
    {
      Connect(id, fd);
      label connected:
      db.RegisterConnection(id, ipv4);
      NoneChanged@connected(TheNet());
      NoRoomChanged@connected(db.channels, conns);
    }

    method Connect(id: Id, fd: int)
      requires Sound() && id !in conns
      modifies this`conns, registry
      ensures Sound() && HasShed(old(registry.view), registry.view, {})
      ensures forall c | c in conns.Values :: c in old(conns.Values) || fresh(c)
      ensures RoomsOf(db.channels) == old(RoomsOf(db.channels))
      ensures Peers(conns) == old(Peers(conns))[id := Peer(true, [])]
      ensures PortsOf(Inputs(conns)) == PortsOf(old(Inputs(conns)))[id := NEW_PORT]
    {
      ghost var before := conns;
      var conn := Open(fd, id, TheNet(), registry);
      NoRoomChanged(db.channels, before);
      MoreConns(db.channels, conns, id, conn);
      Adopt(id, conn);
    }

    method Adopt(id: Id, conn: Connection)
      requires NetOk(TheNet().(conns := conns[id := conn])) && ChannelsOk(db.channels, conns[id := conn])
      modifies this`conns
      ensures Sound() && conns == old(conns)[id := conn] && RoomsOf(db.channels) == old(RoomsOf(db.channels))
      ensures Peers(conns) == old(Peers(conns[id := conn])) && Inputs(conns) == old(Inputs(conns[id := conn]))
    {
      label before:
      conns := conns[id := conn];
      NoneChanged@before(TheNet());
      NoRoomChanged@before(db.channels, conns);
    }

    /** `poll_recv` up to the call of the handler. */
    method Take(id: Id, r: RecvResult) returns (msg: Option<string>, msgEnd: nat, threw: bool)
      requires Sound() && id in conns && conns[id].connected
      requires r.Data? ==> 0 < |r.bytes| <= BUF_SIZE
      modifies registry, conns.Values
      ensures Sound() && HasShed(old(registry.view), registry.view, if r.EndOfStream? then {id} else {})
      ensures View() == if r.EndOfStream? then HungUp(old(View()), id) else old(View())
      ensures threw == r.RecvFailed? && conns[id].connected == !r.EndOfStream?
      ensures Received(Reading(old(conns[id].Input()), r, conns[id].Input(), msg, msgEnd))
      ensures Inputs(conns) == old(Inputs(conns))[id := conns[id].Input()]
      ensures unchanged(db`channels)
    {
      msg, msgEnd, threw := Read(conns[id], r, id, TheNet());
      NoRoomChanged(db.channels, conns);
    }

    method Finish(id: Id, msgEnd: nat)
      requires Sound() && id in conns && msgEnd < |conns[id].Live()|
      modifies conns.Values
      ensures Sound() && View() == old(View())
      ensures Trimmed(old(conns[id].Input()), msgEnd, conns[id].Input())
      ensures Inputs(conns) == old(Inputs(conns))[id := conns[id].Input()]
      ensures unchanged(db`channels) && unchanged(registry)
    {
      Trim(conns[id], msgEnd, id, TheNet());
      NoRoomChanged(db.channels, conns);
    }

    /** `poll_recv` with the server's handler: at most one message is handled. */
    method OnReadable(id: Id, ans: Answers, ghost tok: nat) returns (threw: bool, ghost pick: Id)
      requires Sound() && Attending(id) && AnswersOk(ans)
      modifies db, db.channels.Values, registry, conns.Values
      ensures Sound() && HasShed(old(registry.view), registry.view, {id})
      ensures forall ch | ch in db.channels.Values :: ch in old(db.channels.Values) || fresh(ch)
      ensures DidLeave(old(World()), Call(tok, Callback.OnReadable(id), pick), ans, threw, World())
    {
      pick := 0;
      ghost var w, start, inputs := World(), registry.view, Inputs(conns);
      var msg, msgEnd;
      msg, msgEnd, threw := Take(id, ans.read);
      ghost var reading := Reading(inputs[id], ans.read, conns[id].Input(), msg, msgEnd);
      ReadDelivers(reading);
      if msg.None? {
        ShedAtMost(start, registry.view, if ans.read.EndOfStream? then {id} else {}, {id});
        QuietReadEnds(w, inputs, id, Call(tok, Callback.OnReadable(id), pick), ans, reading, View(), Inputs(conns));
      } else {
        threw, pick := HandleRead(id, msg.value, msgEnd, ans, tok, w, inputs, reading, start);
      }
    }

    /** The rest of `poll_recv` once a message was found, seen from before the read. */
    method HandleRead(id: Id, text: string, msgEnd: nat, ghost ans: Answers, ghost tok: nat, ghost w: World,
                      ghost inputs: map<Id, Intake>,
                      ghost reading: Reading, ghost start: Registry)
      returns (threw: bool, ghost pick: Id)
      requires Sound() && Attending(id) && msgEnd < |conns[id].Live()| && HasShed(start, registry.view, {})
      requires w.ports == PortsOf(inputs) && w.state == View() && id in inputs && IsOpen(w, id)
      requires reading.before == inputs[id] && reading.r == ans.read && Received(reading)
      requires reading.after == conns[id].Input()
      requires reading.msg == Some(text) && reading.msgEnd == msgEnd && Inputs(conns) == inputs[id := reading.after]
      modifies db, db.channels.Values, registry, conns.Values
      ensures Sound() && HasShed(start, registry.view, {id})
      ensures forall ch | ch in db.channels.Values :: ch in old(db.channels.Values) || fresh(ch)
      ensures DidLeave(w, Call(tok, Callback.OnReadable(id), pick), ans, threw, World())
    {
      ghost var mid := Inputs(conns);
      threw, pick := Handle(id, text, msgEnd, start);
      HandledReadEnds(w, inputs, id, Call(tok, Callback.OnReadable(id), pick), ans, reading, mid, conns[id].Input(),
                      threw, View(), Inputs(conns));
    }

    method Handle(id: Id, text: string, msgEnd: nat, ghost start: Registry) returns (threw: bool, ghost pick: Id)
      requires Sound() && Attending(id) && msgEnd < |conns[id].Live()| && HasShed(start, registry.view, {})
      modifies db, db.channels.Values, registry, conns.Values
      ensures Sound() && HasShed(start, registry.view, {id})
      ensures forall ch | ch in db.channels.Values :: ch in old(db.channels.Values) || fresh(ch)
      ensures Did(ServerSpec.HandleMessage(old(View()), id, text, pick), threw, View())
      ensures !threw ==> Trimmed(old(conns[id].Input()), msgEnd, conns[id].Input())
      ensures !threw ==> Inputs(conns) == old(Inputs(conns))[id := conns[id].Input()]
    {
      ghost var mid := registry.view;
      threw, pick := HandleMessage(id, text);
      ShedThen(start, mid, registry.view, {id});
      if !threw {
        InputKept(conns, id);
        Finish(id, msgEnd);
      }
    }

    /** `poll_send`. */
    method OnWritable(id: Id, ans: Answers, ghost call: Call) returns (threw: bool)
      requires Sound() && Attending(id) && conns[id].sendTok.Some? && call.cb == Callback.OnWritable(id)
      modifies registry, conns.Values
      ensures Sound() && HasShed(old(registry.view), registry.view, {id}) && unchanged(db`channels)
      ensures DidLeave(old(World()), call, ans, threw, World())
    {
      ghost var w, inputs, snd := World(), Inputs(conns), conns[id].Snd();
      Ours(TheNet(), id);
      threw := Write(conns[id], ans.sends, id, TheNet());
      NoRoomChanged(db.channels, conns);
      WriteEnds(w, inputs, id, call, ans, snd, threw, View(), Inputs(conns));
    }

    // -------------------------------------------------------------- the clearing loop

    method Bury(id: Id) returns (threw: bool, ghost pick: Id)
      requires Sound()
      modifies db`channels, db.channels.Values, registry, conns.Values
      ensures Sound() && HasShed(old(registry.view), registry.view, {})
      ensures forall ch | ch in db.channels.Values :: ch in old(db.channels.Values)
      ensures Inputs(conns) == old(Inputs(conns))
      ensures Did(Goodbye(old(View()), id, pick), threw, View())
    {
      ShedNothing(registry.view);
      pick := 0;
      if id !in db.infos {
        return true, pick;
      }
      var name, nick := db.infos[id].joined, db.infos[id].nick;
      if name.None? {
        return false, pick;
      }
      if name.value !in db.channels || nick.None? {
        return true, pick;
      }
      threw, pick := Part(id, name.value, ClearingMessage(name.value, nick.value));
    }

    method Erase(id: Id)
      requires Sound() && id in conns && !conns[id].connected && InNoRoom(RoomsOf(db.channels), id)
      modifies this`conns, db`infos
      ensures Sound() && conns == old(conns) - {id} && unchanged(db`channels)
      ensures View() == Removed(old(View()), id)
      ensures Inputs(conns) == old(Inputs(conns)) - {id}
    {
      DropInfo(id);
      Disown(id);
    }

    method DropInfo(id: Id)
      requires Sound()
      modifies db`infos
      ensures Sound() && unchanged(db`channels) && Inputs(conns) == old(Inputs(conns))
      ensures View() == old(View()).(infos := old(View()).infos - {id})
    {
      db.RemoveConnection(id);
      NoneChanged(TheNet());
      NoRoomChanged(db.channels, conns);
    }

    method Disown(id: Id)
      requires Sound() && id in conns && !conns[id].connected && InNoRoom(RoomsOf(db.channels), id)
      modifies this`conns
      ensures Sound() && conns == old(conns) - {id}
      ensures Peers(conns) == old(Peers(conns)) - {id}
      ensures Inputs(conns) == old(Inputs(conns)) - {id}
    {
      Forgotten(TheNet(), id);
      FewerConns(db.channels, conns, id);
      label forgotten:
      conns := conns - {id};
      NoneChanged@forgotten(TheNet());
      NoRoomChanged@forgotten(db.channels, conns);
    }

    method ReapOne(id: Id) returns (ghost pick: Id)
      requires Sound() && id in conns && !conns[id].connected && Clearable(View(), id)
      modifies this`conns, db, db.channels.Values, registry, conns.Values
      ensures Sound() && HasShed(old(registry.view), registry.view, {})
      ensures forall ch | ch in db.channels.Values :: ch in old(db.channels.Values)
      ensures conns == old(conns) - {id} && Inputs(conns) == old(Inputs(conns)) - {id}
      ensures Reap(old(View()), id, pick).Ok? && View() == Reap(old(View()), id, pick).state
    {
      pick := BuryClosed(id);
      Erase(id);
    }

    method BuryClosed(id: Id) returns (ghost pick: Id)
      requires Sound() && id in conns && !conns[id].connected && Clearable(View(), id)
      modifies db`channels, db.channels.Values, registry, conns.Values
      ensures Sound() && HasShed(old(registry.view), registry.view, {})
      ensures forall ch | ch in db.channels.Values :: ch in old(db.channels.Values)
      ensures Inputs(conns) == old(Inputs(conns)) && Cleaned(View(), id)
      ensures Reap(old(View()), id, pick).Ok? && Reap(old(View()), id, pick).state == Removed(View(), id)
    {
      ghost var s := View();
      var threw;
      threw, pick := Bury(id);
      BuriedIs(s, id, pick, threw, View());
    }

    /** The loop of `run` that clears closed connections, in ascending order of id. */
    method ReapAll() returns (ghost turns: seq<Turn>)
      requires Valid()
      modifies this`conns, db, db.channels.Values, registry, conns.Values
      ensures Sound() && HasShed(old(registry.view), registry.view, {})
      ensures forall ch | ch in db.channels.Values :: ch in old(db.channels.Values)
      ensures forall c | c in conns.Values :: c in old(conns.Values)
      ensures old(conns.Keys) <= Visited(turns) && IsCleared(old(World()), turns, World())
    {
      ShedNothing(registry.view);
      ClearsNothing(World());
      turns := ReapEach(World(), registry.view);
    }

    method ReapEach(ghost w: World, ghost start: Registry) returns (ghost turns: seq<Turn>)
      requires Sound() && IsCleared(w, [], World()) && HasShed(start, registry.view, {})
      modifies this`conns, db, db.channels.Values, registry, conns.Values
      ensures Sound() && HasShed(start, registry.view, {})
      ensures forall ch | ch in db.channels.Values :: ch in old(db.channels.Values)
      ensures forall c | c in conns.Values :: c in old(conns.Values)
      ensures old(conns.Keys) <= Visited(turns) && IsCleared(w, turns, World())
    {
      ghost var all := conns.Keys;
      var left := conns.Keys;
      turns := [];
      while left != {}
        invariant left <= conns.Keys && all <= Visited(turns) + left
        invariant Sound() && HasShed(start, registry.view, {})
        invariant forall ch | ch in db.channels.Values :: ch in old(db.channels.Values)
        invariant forall c | c in conns.Values :: c in old(conns.Values)
        invariant IsCleared(w, turns, World())
        decreases |left|
      {
        Least(left);
        var id :| IsLeast(left, id);
        ghost var pick := ReapIfClosed(id, w, turns, start);
        VisitedOne(turns, Turn(id, pick), left, all);
        turns := turns + [Turn(id, pick)];
        left := left - {id};
      }
    }

    method ReapIfClosed(id: Id, ghost w: World, ghost turns: seq<Turn>, ghost start: Registry) returns (ghost pick: Id)
      requires Sound() && id in conns && IsCleared(w, turns, World())
      requires HasShed(start, registry.view, {})
      modifies this`conns, db, db.channels.Values, registry, conns.Values
      ensures Sound() && HasShed(start, registry.view, {})
      ensures forall ch | ch in db.channels.Values :: ch in old(db.channels.Values)
      ensures conns == old(conns) || conns == old(conns) - {id}
      ensures IsCleared(w, turns + [Turn(id, pick)], World())
    {
      pick := 0;
      ghost var u := World();
      if conns[id].connected {
        ClearsOpen(w, turns, u, id, pick);
      } else {
        ClearedIsClearable(w, turns, u, id);
        PortsWithout(Inputs(conns), id);
        ghost var mid := registry.view;
        pick := ReapOne(id);
        ShedThen(start, mid, registry.view, {});
        ClearsOne(w, turns, u, id, pick, World());
      }
    }

    // -------------------------------------------------------------- the main loop

    /** A callback that is called finds its connection alive. */
    ghost predicate Awake(cb: Callback)
      reads this, conns.Values
    {
      match cb
      case OnAccept => true
      case OnReadable(id) => id in conns && conns[id].connected
      case OnWritable(id) => id in conns && conns[id].connected && conns[id].sendTok.Some?
    }

    /** It throws exactly when a system call failed or a message does not complete. */
    method Invoke(cb: Callback, ans: Answers, ghost tok: nat) returns (threw: bool, ghost call: Call)
      requires Valid() && Awake(cb) && AnswersOk(ans)
      modifies this`conns, this`nextId, db, db.channels.Values, registry, conns.Values
      ensures Sound() && HasShed(old(registry.view), registry.view, Who(cb))
      ensures forall c | c in conns.Values :: c in old(conns.Values) || fresh(c)
      ensures forall ch | ch in db.channels.Values :: ch in old(db.channels.Values) || fresh(ch)
      ensures call.tok == tok && call.cb == cb
      ensures DidLeave(old(World()), call, ans, threw, World())
      ensures threw <==> Fatal(old(World()), cb, ans)
    {
      ghost var w := World();
      threw, call := RunCallback(cb, ans, tok);
      CallThrows(w, call, ans, threw, World());
    }

    method RunCallback(cb: Callback, ans: Answers, ghost tok: nat) returns (threw: bool, ghost call: Call)
      requires Valid() && Awake(cb) && AnswersOk(ans)
      modifies this`conns, this`nextId, db, db.channels.Values, registry, conns.Values
      ensures Sound() && HasShed(old(registry.view), registry.view, Who(cb))
      ensures forall c | c in conns.Values :: c in old(conns.Values) || fresh(c)
      ensures forall ch | ch in db.channels.Values :: ch in old(db.channels.Values) || fresh(ch)
      ensures call.tok == tok && call.cb == cb
      ensures DidLeave(old(World()), call, ans, threw, World())
    {
      threw, call := false, Call(tok, cb, 0);
      CallFacts(View());
      match cb {
        case OnAccept => threw := PollAccept(ans, call);
        case OnReadable(id) =>
          ghost var pick;
          threw, pick := OnReadable(id, ans, tok);
          call := call.(pick := pick);
        case OnWritable(id) => threw := OnWritable(id, ans, call);
      }
    }

    /** `poll_and_dispatch` with the server's own callbacks: `answers(k)` is what the system
        calls answer during the `k`-th callback, the one that throws included. */
    method PollAndDispatch(revents: nat -> Mask, answers: nat -> Answers) returns (threw: bool, ghost pass: Pass)
      requires Valid() && forall k :: AnswersOk(answers(k))
      modifies this`conns, this`nextId, db, db.channels.Values, registry, conns.Values
      ensures forall c | c in conns.Values :: c in old(conns.Values) || fresh(c)
      ensures forall ch | ch in db.channels.Values :: ch in old(db.channels.Values) || fresh(ch)
      ensures Sound() && (!threw ==> Inv(View()))
      ensures Ends(RunTicks(old(World()), CallTicks(pass.calls, answers)), threw, World())
      ensures pass.start == Polled(old(registry.view), revents) && pass.now == registry.view && Keeps(pass)
      ensures DropsFit(old(World()), pass.calls, pass.drops, answers)
      ensures !threw ==> PassDone(pass) && IsMirrored(registry.view, World())
    {
      ghost var w := World();
      PollAll(revents);
      PassBegins(registry.view);
      threw, pass := Walk(answers, w, Begun(registry.view));
      assert Keeps(pass);
      if !threw {
        NetMirrors(TheNet(), View());
      }
    }

    /** The loop of `poll_and_dispatch`, over entries that callbacks add and remove. */
    method Walk(answers: nat -> Answers, ghost w: World, ghost first: Pass) returns (threw: bool, ghost pass: Pass)
      requires Valid() && w == World() && forall k :: AnswersOk(answers(k))
      requires Kept(first) && first == Begun(registry.view)
      modifies this`conns, this`nextId, db, db.channels.Values, registry, conns.Values
      ensures forall c | c in conns.Values :: c in old(conns.Values) || fresh(c)
      ensures forall ch | ch in db.channels.Values :: ch in old(db.channels.Values) || fresh(ch)
      ensures Sound() && Ends(RunTicks(w, CallTicks(pass.calls, answers)), threw, World())
      ensures Kept(pass) && pass.start == first.start && pass.now == registry.view
      ensures DropsFit(w, pass.calls, pass.drops, answers)
      ensures !threw ==> Inv(View())
      ensures !threw ==> pass.index >= |registry.fds|
    {
      threw, pass := false, first;
      assert CallTicks([], answers) == [];
      var i, k := 0, 0;
      while i < |registry.fds|
        invariant Valid() && Ends(RunTicks(w, CallTicks(pass.calls, answers)), false, World())
        invariant DropsFit(w, pass.calls, pass.drops, answers)
        invariant Kept(pass) && pass.start == first.start && pass.now == registry.view && pass.index == i
        invariant |pass.calls| == k
        invariant forall c | c in conns.Values :: c in old(conns.Values) || fresh(c)
        invariant forall ch | ch in db.channels.Values :: ch in old(db.channels.Values) || fresh(ch)
        decreases ReadyToks(registry.view, i), |registry.fds| - i
      {
        threw, k, pass := Visit(i, k, answers, w, pass);
        if threw {
          return;
        }
        i := i + 1;
      }
    }

    /** One turn of the loop: the callback at index `i`, if it is ready. */
    method Visit(i: nat, k: nat, answers: nat -> Answers, ghost w: World, ghost before: Pass)
      returns (threw: bool, next: nat, ghost pass: Pass)
      requires Valid() && Ends(RunTicks(w, CallTicks(before.calls, answers)), false, World()) && AnswersOk(answers(k))
      requires DropsFit(w, before.calls, before.drops, answers)
      requires Kept(before) && before.now == registry.view && before.index == i < |registry.fds| && |before.calls| == k
      modifies this`conns, this`nextId, db, db.channels.Values, registry, conns.Values
      ensures forall c | c in conns.Values :: c in old(conns.Values) || fresh(c)
      ensures forall ch | ch in db.channels.Values :: ch in old(db.channels.Values) || fresh(ch)
      ensures !threw ==> Inv(View())
      ensures Sound() && Ends(RunTicks(w, CallTicks(pass.calls, answers)), threw, World())
      ensures DropsFit(w, pass.calls, pass.drops, answers)
      ensures Kept(pass) && pass.start == before.start && pass.now == registry.view && pass.index == i + 1
      ensures |pass.calls| == next
      ensures ReadyToks(registry.view, i + 1) < old(ReadyToks(registry.view, i))
              || (ReadyToks(registry.view, i + 1) <= old(ReadyToks(registry.view, i)) && unchanged(registry))
    {
      if registry.fds[i].revents * registry.fds[i].events != {} {
        threw, pass := InvokeAt(i, answers(k), answers, w, before);
        next := k + 1;
      } else {
        ShedNothing(registry.view);
        TurnShrinks(registry.view, registry.view, i);
        PassSkips(before);
        threw, next, pass := false, k, Skipped(before);
      }
    }

    /** The callback at index `i`. */
    method InvokeAt(i: nat, ans: Answers, ghost answers: nat -> Answers, ghost w: World, ghost before: Pass)
      returns (threw: bool, ghost pass: Pass)
      requires Valid() && Ends(RunTicks(w, CallTicks(before.calls, answers)), false, World())
      requires AnswersOk(ans) && ans == answers(|before.calls|)
      requires DropsFit(w, before.calls, before.drops, answers)
      requires Kept(before) && before.now == registry.view && before.index == i < |registry.fds|
      requires Ready(registry.view.entries[i])
      modifies this`conns, this`nextId, db, db.channels.Values, registry, conns.Values
      ensures forall c | c in conns.Values :: c in old(conns.Values) || fresh(c)
      ensures forall ch | ch in db.channels.Values :: ch in old(db.channels.Values) || fresh(ch)
      ensures !threw ==> Inv(View())
      ensures Sound() && Ends(RunTicks(w, CallTicks(pass.calls, answers)), threw, World())
      ensures DropsFit(w, pass.calls, pass.drops, answers)
      ensures Kept(pass) && pass.start == before.start && pass.now == registry.view && pass.index == i + 1
      ensures |pass.calls| == |before.calls| + 1
      ensures ReadyToks(registry.view, i + 1) < old(ReadyToks(registry.view, i))
    {
      CalledIsLive(TheNet(), i);
      ghost var r, v := registry.view, World();
      WiredOneEach(TheNet());
      NetMirrors(TheNet(), View());
      ghost var call;
      threw, call := Invoke(registry.callbacksAndToks[i].0, ans, r.entries[i].tok);
      if !threw {
        CallKeepsInv(v, call, ans, World());
        NetMirrors(TheNet(), View());
      }
      ShedEvolves(r, registry.view, Who(call.cb));
      TurnShrinks(r, registry.view, i);
      PassCalls(before, registry.view, call);
      CallEnds(w, before.calls, call, answers, v, threw, World());
      CallFits(w, before.calls, before.drops, call, answers, v, threw, World(), r, registry.view);
      pass := Advanced(before, registry.view, call);
    }

    method PollAll(revents: nat -> Mask)
      requires Sound()
      modifies registry
      ensures Sound() && World() == old(World()) && registry.view == Polled(old(registry.view), revents)
    {
      WiredPolled(registry.view, revents, Links(conns), TheNet().listener);
      registry.Poll(revents);
      NoRoomChanged(db.channels, conns);
    }

    /** One turn of the loop of `run`. */
    method ServeRound(round: Round) returns (threw: bool, ghost served: Served)
      requires Valid() && forall k :: AnswersOk(round.answers(k))
      modifies this`conns, this`nextId, db, db.channels.Values, registry, conns.Values
      ensures forall c | c in conns.Values :: c in old(conns.Values) || fresh(c)
      ensures forall ch | ch in db.channels.Values :: ch in old(db.channels.Values) || fresh(ch)
      ensures Sound() && Ends(RunRound(old(World()), served, round), threw, World())
      ensures Tracks(old(World()), old(registry.view), served, round)
      ensures Walked(old(registry.view), served, round) && served.end == registry.view
      ensures round.n < 0 ==> threw == !round.interrupted && World() == old(World())
      ensures !threw ==> Inv(View()) && (round.n >= 0 ==> PassDone(served.pass) && AllOpen(View()))
    {
      ghost var w := World();
      NetIsOk(TheNet(), View());
      NetMirrors(TheNet(), View());
      served := Served(Begun(registry.view), [], registry.view);
      if round.n < 0 {
        return !round.interrupted, served;
      }
      ghost var pass;
      threw, pass := PollAndDispatch(round.revents, round.answers);
      ShedNothing(registry.view);
      served := Served(pass, [], registry.view);
      if !threw {
        ghost var v := World();
        ghost var turns := ReapAll();
        served := Served(pass, turns, registry.view);
        RoundEnds(w, served, round, v, World());
      }
    }

    /** `run`: the rounds, until one throws. Whatever happens on every connection is what the
        bytes read from it say. */
    method Serve(rounds: seq<Round>) returns (threw: bool, ghost serves: seq<Served>)
      requires Valid() && forall j, k | 0 <= j < |rounds| :: AnswersOk(rounds[j].answers(k))
      modifies this`conns, this`nextId, db, db.channels.Values, registry, conns.Values
      ensures |serves| <= |rounds| && Ends(RunRounds(old(World()), serves, rounds), threw, World())
      ensures AllWalked(old(registry.view), serves, rounds)
      ensures AllPassed(serves, rounds, |serves| - if threw then 1 else 0)
      ensures AllTracked(old(World()), old(registry.view), serves, rounds)
      ensures Sound() && (!threw ==> |serves| == |rounds| && Inv(View()))
      ensures !threw ==> RegistryAt(old(registry.view), serves, |rounds|) == registry.view
      ensures !threw ==> IsMirrored(registry.view, World())
      ensures !threw ==> old(Reachable(View())) ==> Reachable(View())
      ensures !threw ==> forall id ::
                HandlesReads(old(World()), AllTicks(serves, rounds), RunRounds(old(World()), serves, rounds), id)
    {
      ghost var w, start := World(), registry.view;
      NetIsOk(TheNet(), View());
      threw, serves := false, [];
      var j := 0;
      while j < |rounds|
        invariant j <= |rounds| && |serves| == j && Ends(RunRounds(w, serves, rounds), false, World())
        invariant Valid() && AllWalked(start, serves, rounds) && AllPassed(serves, rounds, j)
        invariant AllTracked(w, start, serves, rounds)
        invariant RegistryAt(start, serves, j) == registry.view
        invariant forall c | c in conns.Values :: c in old(conns.Values) || fresh(c)
        invariant forall ch | ch in db.channels.Values :: ch in old(db.channels.Values) || fresh(ch)
      {
        ghost var v := World();
        ghost var served;
        threw, served := ServeRound(rounds[j]);
        OneMoreTracked(w, start, serves, rounds, served, v);
        OneMoreWalked(start, serves, rounds, served);
        OneMorePassed(serves, rounds, served);
        OneMoreRound(w, serves, rounds, served, v, threw, World());
        serves := serves + [served];
        if threw {
          return;
        }
        j := j + 1;
      }
      NetMirrors(TheNet(), View());
      RoundsHandleReads(w, serves, rounds);
      if Reachable(w.state) {
        RoundsReach(w, serves, rounds);
      }
    }
  }
}
